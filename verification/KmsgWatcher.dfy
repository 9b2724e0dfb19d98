/** The kernel log watcher: a loop that owns one kmsg parser, delivers its messages, restarts it when
    its channel closes, and rate-limits the restarts. What the surroundings do is given from outside: when
    the stop is signalled, what arrives, and which parser creations and seeks succeed. How long anything
    takes is left open. `tries` cuts an endless restart off anywhere. */
module KmsgWatchers {
  import opened Options

  const RETRY_DELAY := 5_000_000_000  // nanoseconds

  /** What the watcher does to its parsers; parsers are numbered in order of creation. */
  datatype Op =
    | Attempt(time: int)     // newParser called on the restart path
    | Created(id: nat)
    | Sought(id: nat)        // SeekEnd succeeded
    | Parsed(id: nat)
    | Closed(id: nat)
    | Finished               // log channel closed and done signalled

  // ----- legal histories -----

  function CreatedIn(trace: seq<Op>): (r: nat) {
    if trace == [] then 0
    else CreatedIn(trace[..|trace| - 1]) + if trace[|trace| - 1].Created? then 1 else 0
  }

  function OpenIn(trace: seq<Op>): (r: set<nat>) {
    if trace == [] then {}
    else
      var before := OpenIn(trace[..|trace| - 1]);
      match trace[|trace| - 1]
      case Created(id) => before + {id}
      case Closed(id) => before - {id}
      case _ => before
  }

  function LastAttempt(trace: seq<Op>): (r: Option<int>) {
    if trace == [] then None
    else if trace[|trace| - 1].Attempt? then Some(trace[|trace| - 1].time)
    else LastAttempt(trace[..|trace| - 1])
  }

  /** What may come next: a parser is created only when none is open, only an open parser is
      closed, sought or parsed, a restarted one is parsed only after its seek succeeded, restart
      attempts keep their distance, and the watcher finishes last and with nothing open. */
  ghost predicate LegalNext(before: seq<Op>, op: Op) {
    && Finished !in before
    && match op
       case Attempt(time) => var last := LastAttempt(before); last.None? || time - last.value >= RETRY_DELAY
       case Created(id) => OpenIn(before) == {} && id == CreatedIn(before)
       case Sought(id) => id in OpenIn(before)
       case Parsed(id) => id in OpenIn(before) && (id == 0 || Sought(id) in before)
       case Closed(id) => id in OpenIn(before)
       case Finished => OpenIn(before) == {}
  }

  ghost predicate Legal(trace: seq<Op>) {
    trace == [] || (Legal(trace[..|trace| - 1]) && LegalNext(trace[..|trace| - 1], trace[|trace| - 1]))
  }

  lemma {:induction false} LegalPrefix(trace: seq<Op>, n: nat)
    requires Legal(trace) && n <= |trace|
    ensures Legal(trace[..n])
    ensures n < |trace| ==> LegalNext(trace[..n], trace[n])
  {
    if n < |trace| {
      LegalPrefix(trace[..|trace| - 1], n);
      assert trace[..|trace| - 1][..n] == trace[..n];
    } else {
      assert trace[..n] == trace;
    }
  }

  lemma {:induction false} OpenAreCreated(trace: seq<Op>)
    requires Legal(trace)
    ensures forall id :: id in OpenIn(trace) ==> id < CreatedIn(trace)
  {
    if trace != [] { OpenAreCreated(trace[..|trace| - 1]); }
  }

  /** At every moment of a legal history at most one parser is open. */
  lemma {:induction false} AtMostOneOpen(trace: seq<Op>, n: nat)
    requires Legal(trace) && n <= |trace|
    ensures |OpenIn(trace[..n])| <= 1
  {
    LegalPrefix(trace, n);
    if n > 0 {
      AtMostOneOpen(trace, n - 1);
      LegalPrefix(trace, n - 1);
      assert trace[..n][..n - 1] == trace[..n - 1];
    }
  }

  function ClosesOf(trace: seq<Op>, id: nat): (r: nat) {
    if trace == [] then 0
    else ClosesOf(trace[..|trace| - 1], id) + if trace[|trace| - 1] == Closed(id) then 1 else 0
  }

  /** A parser that was created is closed exactly once or still open; others never. */
  lemma {:induction false} CreatedClosedOnceOrOpen(trace: seq<Op>, id: nat)
    requires Legal(trace)
    ensures ClosesOf(trace, id) == if id < CreatedIn(trace) && id !in OpenIn(trace) then 1 else 0
  {
    if trace != [] {
      CreatedClosedOnceOrOpen(trace[..|trace| - 1], id);
      OpenAreCreated(trace[..|trace| - 1]);
    }
  }

  /** When the watcher has finished, every parser ever created was closed exactly once. */
  lemma {:induction false} FinishedClosesAll(trace: seq<Op>, id: nat)
    requires Legal(trace) && Finished in trace && id < CreatedIn(trace)
    ensures ClosesOf(trace, id) == 1
  {
    FinishedIsLast(trace);
    var last := |trace| - 1;
    CreatedClosedOnceOrOpen(trace[..last], id);
  }

  lemma {:induction false} FinishedIsLast(trace: seq<Op>)
    requires Legal(trace) && Finished in trace
    ensures trace[|trace| - 1] == Finished && OpenIn(trace[..|trace| - 1]) == {}
  {
    var before := trace[..|trace| - 1];
    assert LegalNext(before, trace[|trace| - 1]);
    assert trace == before + [trace[|trace| - 1]];
  }

  /** A parser is parsed only while it is open, and a restarted one only after its seek to the
      end succeeded. */
  lemma {:induction false} ParsedAfterSeek(trace: seq<Op>, n: nat)
    requires Legal(trace) && n < |trace| && trace[n].Parsed?
    ensures trace[n].id in OpenIn(trace[..n])
    ensures trace[n].id != 0 ==> exists m :: 0 <= m < n && trace[m] == Sought(trace[n].id)
  {
    LegalPrefix(trace, n);
    if trace[n].id != 0 {
      var m :| 0 <= m < n && trace[..n][m] == Sought(trace[n].id);
      assert trace[m] == Sought(trace[n].id);
    }
  }

  // ----- restart attempts -----

  function Attempts(trace: seq<Op>): (r: seq<int>) {
    if trace == [] then []
    else Attempts(trace[..|trace| - 1]) + if trace[|trace| - 1].Attempt? then [trace[|trace| - 1].time] else []
  }

  lemma {:induction false} LastAttemptIsLast(trace: seq<Op>)
    ensures LastAttempt(trace) == if Attempts(trace) == [] then None else Some(Attempts(trace)[|Attempts(trace)| - 1])
  {
    if trace != [] { LastAttemptIsLast(trace[..|trace| - 1]); }
  }

  /** Any two restart attempts, in one restart or in different ones, are apart by the retry delay of
      five seconds for every attempt between them and one. */
  lemma {:induction false} AttemptsKeepDistance(trace: seq<Op>, x: nat, y: nat)
    requires Legal(trace) && x <= y < |Attempts(trace)|
    ensures Attempts(trace)[y] - Attempts(trace)[x] >= (y - x) * 5_000_000_000
  {
    var before := trace[..|trace| - 1];
    if y < |Attempts(before)| {
      AttemptsKeepDistance(before, x, y);
    } else if x < y {
      AttemptsKeepDistance(before, x, y - 1);
      LastAttemptIsLast(before);
    }
  }

  /** So a window of length `span` holds at most one attempt per retry delay, and one more. */
  lemma {:induction false} RestartsAreRateLimited(trace: seq<Op>, x: nat, y: nat, span: nat)
    requires Legal(trace) && x < y <= |Attempts(trace)|
    requires Attempts(trace)[y - 1] - Attempts(trace)[x] <= span
    ensures y - x <= span / 5_000_000_000 + 1
  {
    AttemptsKeepDistance(trace, x, y - 1);
  }

  // ----- messages -----

  datatype Message = Message(text: string, timestamp: int)

  datatype Log = Log(message: string, timestamp: int)

  /** What the loop reads next from the parser's channel. */
  datatype Arrival = Arrived(message: Message) | ChannelClosed

  /** White space as `unicode.IsSpace` has it. */
  predicate IsSpace(c: char) {
    || '\t' <= c <= '\r' || c == ' ' || c == '\U{85}' || c == '\U{A0}' || c == '\U{1680}' || '\U{2000}' <= c <= '\U{200A}'
    || c == '\U{2028}' || c == '\U{2029}' || c == '\U{202F}' || c == '\U{205F}' || c == '\U{3000}'
  }

  function TrimLeft(s: string): (r: string) {
    if s != "" && IsSpace(s[0]) then TrimLeft(s[1..]) else s
  }

  function TrimRight(s: string): (r: string) {
    if s != "" && IsSpace(s[|s| - 1]) then TrimRight(s[..|s| - 1]) else s
  }

  function TrimSpace(s: string): (r: string) {
    TrimRight(TrimLeft(s))
  }

  ghost predicate AllSpace(s: string) { forall k :: 0 <= k < |s| ==> IsSpace(s[k]) }

  /** Trimming cuts white space off both ends and leaves none there. */
  lemma {:induction false} TrimCutsSpace(s: string) returns (front: string, back: string)
    ensures s == front + TrimSpace(s) + back && AllSpace(front) && AllSpace(back)
    ensures var r := TrimSpace(s); r != "" ==> !IsSpace(r[0]) && !IsSpace(r[|r| - 1])
  {
    front := TrimLeftCuts(s);
    back := TrimRightCuts(TrimLeft(s));
  }

  lemma {:induction false} TrimLeftCuts(s: string) returns (front: string)
    ensures s == front + TrimLeft(s) && AllSpace(front)
    ensures TrimLeft(s) != "" ==> !IsSpace(TrimLeft(s)[0])
  {
    if s != "" && IsSpace(s[0]) {
      var rest := TrimLeftCuts(s[1..]);
      front := [s[0]] + rest;
    } else {
      front := "";
    }
  }

  lemma {:induction false} TrimRightCuts(s: string) returns (back: string)
    ensures s == TrimRight(s) + back && AllSpace(back)
    ensures TrimRight(s) != "" ==> !IsSpace(TrimRight(s)[|TrimRight(s)| - 1]) && TrimRight(s)[0] == s[0]
  {
    if s != "" && IsSpace(s[|s| - 1]) {
      var rest := TrimRightCuts(s[..|s| - 1]);
      back := rest + [s[|s| - 1]];
    } else {
      back := "";
    }
  }

  /** What is delivered of some arrivals: the messages that are not empty and not older than the start. */
  function Deliverable(arrivals: seq<Arrival>, startTime: int): (r: seq<Log>) {
    if arrivals == [] then []
    else
      var before, a := Deliverable(arrivals[..|arrivals| - 1], startTime), arrivals[|arrivals| - 1];
      if a.Arrived? && a.message.text != "" && a.message.timestamp >= startTime
      then before + [Log(TrimSpace(a.message.text), a.message.timestamp)] else before
  }

  // ----- the watcher -----

  datatype Restart = Restarted | StopSignalled | StillTrying

  class KmsgWatcher {
    const stopAt: Option<int>      // when the stop is signalled, if ever
    const creates: nat -> bool     // whether the parser of the n-th restart attempt can be created
    const seeks: nat -> bool       // whether it can seek to the end
    const startTime: int
    var kmsgParser: Option<nat>
    var lastRestart: Option<int>
    var now: int
    var delivered: seq<Log>
    var trace: seq<Op>

    predicate StopSeen()
      reads this
    {
      stopAt.Some? && stopAt.value <= now
    }

    ghost predicate Running()
      reads this
    {
      Legal(trace) && Finished !in trace
    }

    /** Between two turns: a parser is open, known and the only one, and the last restart
        attempt is no later than the restart that it led to. */
    ghost predicate OwnsParser()
      reads this
    {
      && Running() && kmsgParser.Some? && OpenIn(trace) == {kmsgParser.value}
      && AttemptsBeforeRestart()
    }

    ghost predicate AttemptsBeforeRestart()
      reads this
    {
      var last := LastAttempt(trace);
      last.Some? ==> lastRestart.Some? && last.value <= lastRestart.value <= now
    }

    /** Without a parser, as during a restart. */
    ghost predicate OwnsNone()
      reads this
    {
      Running() && kmsgParser == None && OpenIn(trace) == {}
    }

    /** The next attempt may be made now. */
    ghost predicate MayAttempt()
      reads this
    {
      LastAttempt(trace).None? || now - LastAttempt(trace).value >= RETRY_DELAY
    }

    /** A watcher whose first parser `Watch` has just created. */
    constructor (startTime: int, now: int, stopAt: Option<int>, creates: nat -> bool, seeks: nat -> bool)
      ensures OwnsParser() && trace == [Created(0)] && kmsgParser == Some(0) && delivered == []
      ensures this.startTime == startTime && this.stopAt == stopAt && this.creates == creates && this.seeks == seeks
    {
      this.startTime, this.stopAt, this.creates, this.seeks := startTime, stopAt, creates, seeks;
      kmsgParser, lastRestart, this.now, delivered, trace := Some(0), None, now, [], [Created(0)];
      new;
      assert trace[..0] == [] && LegalNext([], Created(0));
    }

    method Record(op: Op)
      requires Legal(trace) && LegalNext(trace, op)
      modifies this`trace
      ensures trace == old(trace) + [op] && Legal(trace)
      ensures Finished in trace <==> op == Finished
      ensures OpenIn(trace) == (match op case Created(id) => OpenIn(old(trace)) + {id}
                                         case Closed(id) => OpenIn(old(trace)) - {id}
                                         case _ => OpenIn(old(trace)))
      ensures LastAttempt(trace) == if op.Attempt? then Some(op.time) else LastAttempt(old(trace))
      ensures |Attempts(trace)| == |Attempts(old(trace))| + if op.Attempt? then 1 else 0
      ensures CreatedIn(trace) == CreatedIn(old(trace)) + if op.Created? then 1 else 0
    {
      trace := trace + [op];
      assert trace[..|trace| - 1] == old(trace);
      assert trace[|trace| - 1] == op;
    }

    /** At least `d` goes by. */
    method Pass(d: nat)
      modifies this`now
      ensures now >= old(now) + d
    {
      var extra :| extra >= 0;
      now := now + d + extra;
    }

    /** Waits for the stop or for `d`, whichever comes first. */
    method Wait(d: nat) returns (stopped: bool)
      requires d > 0
      modifies this`now
      ensures now >= old(now)
      ensures stopped ==> StopSeen()
      ensures !stopped ==> now >= old(now) + d && !old(StopSeen())
    {
      if stopAt.Some? && stopAt.value < now + d {
        now := if stopAt.value < now then now else stopAt.value;
        return true;
      }
      Pass(d);
      return false;
    }

    /** The main loop on some arrivals. However the run goes and wherever it is cut off, the history is
        legal; it ends, with `Finished`, only after a stop; and until then every arrival is dealt with. */
    method WatchLoop(arrivals: seq<Arrival>, tries: nat) returns (exited: bool, cut: bool, seen: nat)
      requires OwnsParser() && kmsgParser == Some(0) && delivered == []
      modifies this
      ensures Legal(trace) && old(trace) <= trace
      ensures exited <==> Finished in trace
      ensures exited ==> StopSeen()
      ensures seen <= |arrivals| && (!exited && !cut ==> seen == |arrivals|)
      ensures cut ==> seen < |arrivals| && arrivals[seen] == ChannelClosed
      ensures delivered == Deliverable(arrivals[..seen], startTime)
    {
      Record(Parsed(0));
      exited, cut, seen := false, false, 0;
      while seen < |arrivals| && !exited && !cut
        invariant seen <= |arrivals| && old(trace) <= trace
        invariant if exited || cut then OwnsParser() || OwnsNone() else OwnsParser()
        invariant exited ==> StopSeen()
        invariant cut ==> seen < |arrivals| && arrivals[seen] == ChannelClosed
        invariant delivered == Deliverable(arrivals[..seen], startTime)
        decreases |arrivals| - seen, if exited || cut then 0 else 1
      {
        exited, cut := Turn(arrivals[seen], tries);
        if !exited && !cut {
          assert arrivals[..seen + 1][..seen] == arrivals[..seen];
          seen := seen + 1;
        }
      }
      if exited {
        CleanUp();
      }
    }

    /** One turn of the select; `cut` says that the run was cut off in the middle of a restart. */
    method Turn(arrival: Arrival, tries: nat) returns (exited: bool, cut: bool)
      requires OwnsParser()
      modifies this
      ensures old(trace) <= trace
      ensures if exited || cut then OwnsParser() || OwnsNone() else OwnsParser()
      ensures exited ==> StopSeen() && !cut
      ensures arrival.Arrived? ==> trace == old(trace) && kmsgParser == old(kmsgParser) && !cut
      ensures arrival == ChannelClosed && !exited ==>
        |trace| > |old(trace)| && trace[|old(trace)|] == Closed(old(kmsgParser).value)
      ensures arrival == ChannelClosed && !exited && !cut ==>
        kmsgParser.value == CreatedIn(trace) - 1 >= CreatedIn(old(trace)) && trace[|trace| - 1] == Parsed(kmsgParser.value)
      ensures cut ==> |Attempts(trace)| == |Attempts(old(trace))| + tries
      ensures delivered == old(delivered) +
        if !exited && arrival.Arrived? && arrival.message.text != "" && arrival.message.timestamp >= startTime
        then [Log(TrimSpace(arrival.message.text), arrival.message.timestamp)] else []
    {
      exited, cut := false, false;
      Pass(0);
      var stopFirst: bool := *;
      if StopSeen() && stopFirst {
        exited := true;
      } else if arrival == ChannelClosed {
        var r := Restart(tries);
        exited, cut := r == StopSignalled, r == StillTrying;
      } else if arrival.message.text != "" && arrival.message.timestamp >= startTime {
        var sent := Send(Log(TrimSpace(arrival.message.text), arrival.message.timestamp));
        exited := !sent;
      }
    }

    /** Closes the old parser and gets a new one. */
    method Restart(tries: nat) returns (r: Restart)
      requires OwnsParser()
      modifies this`kmsgParser, this`lastRestart, this`now, this`trace
      ensures old(trace) <= trace && now >= old(now)
      ensures if r == Restarted then OwnsParser() else OwnsNone()
      ensures r == StopSignalled ==> StopSeen()
      ensures |trace| > |old(trace)| && trace[|old(trace)|] == Closed(old(kmsgParser).value)
      ensures r == Restarted ==>
        kmsgParser.value == CreatedIn(trace) - 1 >= CreatedIn(old(trace)) && trace[|trace| - 1] == Parsed(kmsgParser.value)
      ensures r == StillTrying ==> |Attempts(trace)| == |Attempts(old(trace))| + tries
    {
      Record(Closed(kmsgParser.value));
      kmsgParser := None;
      r := RetryCreateParser(tries);
    }

    /** Sends to the log channel, which may have to wait for room; only a stop keeps it from sending. */
    method Send(log: Log) returns (sent: bool)
      modifies this`now, this`delivered
      ensures now >= old(now)
      ensures !sent ==> StopSeen()
      ensures delivered == if sent then old(delivered) + [log] else old(delivered)
    {
      var stopFirst: bool, untilRoom: nat := *, *;
      if StopSeen() && stopFirst {
        return false;
      }
      if untilRoom > 0 {
        var stopped := Wait(untilRoom);
        if stopped {
          return false;
        }
      }
      delivered := delivered + [log];
      return true;
    }

    /** The deferred clean-up; the parser is gone when the stop interrupted a restart. */
    method CleanUp()
      requires OwnsParser() || OwnsNone()
      modifies this`trace
      ensures Legal(trace) && Finished in trace && old(trace) <= trace
    {
      if kmsgParser.Some? {
        Record(Closed(kmsgParser.value));
      }
      Record(Finished);
    }

    /** The attempt number `n` leads to a parser that is ready to be parsed. */
    predicate Succeeds(n: nat) { creates(n) && seeks(n) }

    /** Creates, seeks and parses a new parser; it waits between attempts and after a recent restart. It
        restarts with the first attempt that succeeds, gives up only after a stop, and makes at most one
        attempt after it. */
    method RetryCreateParser(tries: nat) returns (r: Restart)
      requires OwnsNone() && AttemptsBeforeRestart()
      modifies this`kmsgParser, this`lastRestart, this`now, this`trace
      ensures old(trace) <= trace && now >= old(now)
      ensures if r == Restarted then OwnsParser() else OwnsNone()
      ensures r == StopSignalled ==> StopSeen()
      ensures var before, after := |Attempts(old(trace))|, |Attempts(trace)|;
        && before <= after <= before + tries
        && (forall n :: before <= n < after - 1 ==> !Succeeds(n))
        && (r == Restarted <==> after > before && Succeeds(after - 1))
        && (r == StillTrying ==> after == before + tries)
        && (old(StopSeen()) ==> after <= before + 1 && (tries > 0 ==> r != StillTrying))
      ensures r == Restarted ==>
        kmsgParser.value == CreatedIn(trace) - 1 >= CreatedIn(old(trace)) && trace[|trace| - 1] == Parsed(kmsgParser.value)
    {
      var stopped := WaitAfterRestart();
      if stopped {
        return StopSignalled;
      }
      r := TryUntilRestarted(tries);
    }

    /** Waits until the last restart is a retry delay ago. */
    method WaitAfterRestart() returns (stopped: bool)
      requires AttemptsBeforeRestart()
      modifies this`now
      ensures now >= old(now)
      ensures if stopped then StopSeen() else MayAttempt()
    {
      stopped := false;
      if lastRestart.Some? && now - lastRestart.value < RETRY_DELAY {
        stopped := Wait(RETRY_DELAY - (now - lastRestart.value));
      }
    }

    method TryUntilRestarted(tries: nat) returns (r: Restart)
      requires OwnsNone() && MayAttempt()
      modifies this`kmsgParser, this`lastRestart, this`now, this`trace
      ensures old(trace) <= trace && now >= old(now)
      ensures if r == Restarted then OwnsParser() else OwnsNone()
      ensures r == StopSignalled ==> StopSeen()
      ensures var before, after := |Attempts(old(trace))|, |Attempts(trace)|;
        && before <= after <= before + tries
        && (forall n :: before <= n < after - 1 ==> !Succeeds(n))
        && (r == Restarted <==> after > before && Succeeds(after - 1))
        && (r == StillTrying ==> after == before + tries)
        && (old(StopSeen()) ==> after <= before + 1 && (tries > 0 ==> r != StillTrying))
      ensures r == Restarted ==>
        kmsgParser.value == CreatedIn(trace) - 1 >= CreatedIn(old(trace)) && trace[|trace| - 1] == Parsed(kmsgParser.value)
    {
      var n := 0;
      while n < tries
        invariant n <= tries && OwnsNone() && MayAttempt() && old(trace) <= trace && now >= old(now)
        invariant |Attempts(trace)| == |Attempts(old(trace))| + n && CreatedIn(trace) >= CreatedIn(old(trace))
        invariant forall m :: |Attempts(old(trace))| <= m < |Attempts(trace)| ==> !Succeeds(m)
        invariant old(StopSeen()) ==> n == 0
      {
        n := n + 1;
        var restarted := TryCreateParser();
        if restarted {
          return Restarted;
        }
        var stopped := Wait(RETRY_DELAY);
        if stopped {
          return StopSignalled;
        }
      }
      return StillTrying;
    }

    /** One turn of the retry loop up to its wait. */
    method TryCreateParser() returns (restarted: bool)
      requires OwnsNone() && MayAttempt()
      modifies this`kmsgParser, this`lastRestart, this`now, this`trace
      ensures old(trace) <= trace && now >= old(now)
      ensures restarted <==> Succeeds(|Attempts(old(trace))|)
      ensures |Attempts(trace)| == |Attempts(old(trace))| + 1 && CreatedIn(trace) >= CreatedIn(old(trace))
      ensures if restarted then OwnsParser() else OwnsNone() && LastAttempt(trace).Some? && LastAttempt(trace).value <= now
      ensures restarted ==>
        kmsgParser.value == CreatedIn(trace) - 1 >= CreatedIn(old(trace)) && trace[|trace| - 1] == Parsed(kmsgParser.value)
    {
      var n := |Attempts(trace)|;
      Record(Attempt(now));
      Pass(0);
      if !creates(n) {
        return false;
      }
      restarted := NewParser(seeks(n));
    }

    /** Takes the new parser and seeks it to the end. */
    method NewParser(sought: bool) returns (restarted: bool)
      requires OwnsNone() && LastAttempt(trace).Some? && LastAttempt(trace).value <= now
      modifies this`kmsgParser, this`lastRestart, this`now, this`trace
      ensures old(trace) <= trace && restarted == sought && now >= old(now)
      ensures |Attempts(trace)| == |Attempts(old(trace))| && CreatedIn(trace) == CreatedIn(old(trace)) + 1
      ensures LastAttempt(trace) == LastAttempt(old(trace))
      ensures if restarted then OwnsParser() && kmsgParser == Some(CreatedIn(old(trace))) && trace[|trace| - 1] == Parsed(kmsgParser.value)
              else OwnsNone()
    {
      var parser := CreatedIn(trace);
      Record(Created(parser));
      Pass(0);
      restarted := SeekEnd(parser, sought);
    }

    /** Seeks the new parser to the end and parses it, or closes it. */
    method SeekEnd(parser: nat, sought: bool) returns (restarted: bool)
      requires Running() && kmsgParser == None && OpenIn(trace) == {parser}
      requires LastAttempt(trace).Some? && LastAttempt(trace).value <= now
      modifies this`kmsgParser, this`lastRestart, this`trace
      ensures old(trace) <= trace && restarted == sought
      ensures |Attempts(trace)| == |Attempts(old(trace))| && CreatedIn(trace) == CreatedIn(old(trace))
      ensures LastAttempt(trace) == LastAttempt(old(trace))
      ensures if restarted then OwnsParser() && kmsgParser == Some(parser) && trace[|trace| - 1] == Parsed(parser) else OwnsNone()
    {
      if !sought {
        Record(Closed(parser));
        return false;
      }
      Record(Sought(parser));
      kmsgParser := Some(parser);
      lastRestart := Some(now);
      assert Sought(parser) == trace[|trace| - 1];
      Record(Parsed(parser));
      return true;
    }
  }
}
