/** The feedback throttle of one action: it drops repeats but keeps the shape of the stream. */
module Throttle {
  import opened Common

  /** One feedback record; severity decides whether it may be held back. */
  datatype Feedback = Feedback(sequence: int, status: string, phase: string, severity: string)

  /** lastEmittedAt is None until the first emission, as a zero time is in the program. */
  datatype State = State(
    interval: int, lastEmittedAt: Option<int>, lastStatus: string, lastPhase: string,
    pending: Option<Feedback>)

  /** A throttle with the feedback it has let through and the highest sequence it has seen. */
  datatype Stream = Stream(throttle: State, cursor: int, emitted: seq<Feedback>)

  function NewThrottle(interval: int): State {
    State(interval, None, "", "", None)
  }

  predicate Changed(t: State, item: Feedback) {
    t.lastEmittedAt.None? || item.status != t.lastStatus || item.phase != t.lastPhase
  }

  predicate Important(item: Feedback) {
    item.severity == "error" || item.severity == "critical"
  }

  function Emit(s: Stream, item: Feedback, now: int): Stream {
    s.(emitted := s.emitted + [item],
       throttle := State(s.throttle.interval, Some(now), item.status, item.phase, None))
  }

  /** One incoming record; a sequence at or below the cursor has been seen already. */
  function Offer(s: Stream, item: Feedback, now: int): Stream {
    if item.sequence <= s.cursor then s
    else
      var seen := s.(cursor := item.sequence);
      if s.throttle.interval <= 0 || Changed(s.throttle, item) || Important(item)
      then Emit(seen, item, now)
      else seen.(throttle := s.throttle.(pending := Some(item)))
  }

  function OfferAll(s: Stream, incoming: seq<Feedback>, now: int): (r: Stream)
    ensures s.emitted <= r.emitted
    decreases |incoming|
  {
    if incoming == [] then s
    else OfferAll(Offer(s, incoming[0], now), incoming[1..], now)
  }

  predicate Due(t: State, terminal: bool, now: int) {
    t.pending.Some? && (terminal || t.lastEmittedAt.None? || now - t.lastEmittedAt.value >= t.interval)
  }

  function Flush(s: Stream, terminal: bool, now: int): Stream {
    if Due(s.throttle, terminal, now) then Emit(s, s.throttle.pending.value, now) else s
  }

  /** One answer of the Ability: its batch, when it was applied, and whether it ended the action. */
  datatype Poll = Poll(incoming: seq<Feedback>, now: int, terminal: bool)

  function ApplyPoll(s: Stream, poll: Poll): (r: Stream)
    ensures s.emitted <= r.emitted
  {
    Flush(OfferAll(s, poll.incoming, poll.now), poll.terminal, poll.now)
  }

  function Start(interval: int, cursor: int): Stream {
    Stream(NewThrottle(interval), cursor, [])
  }

  function RunPolls(s: Stream, polls: seq<Poll>): Stream
    decreases |polls|
  {
    if polls == [] then s else RunPolls(ApplyPoll(s, polls[0]), polls[1..])
  }

  /** The records of a batch that raise the cursor, in order: what a throttle-free reader would see. */
  function Fresh(cursor: int, incoming: seq<Feedback>): seq<Feedback>
    decreases |incoming|
  {
    if incoming == [] then []
    else if incoming[0].sequence <= cursor then Fresh(cursor, incoming[1..])
    else [incoming[0]] + Fresh(incoming[0].sequence, incoming[1..])
  }

  function Top(cursor: int, incoming: seq<Feedback>): int
    decreases |incoming|
  {
    if incoming == [] then cursor
    else Top(if incoming[0].sequence <= cursor then cursor else incoming[0].sequence, incoming[1..])
  }

  function FreshOver(cursor: int, polls: seq<Poll>): seq<Feedback>
    decreases |polls|
  {
    if polls == [] then []
    else Fresh(cursor, polls[0].incoming) + FreshOver(Top(cursor, polls[0].incoming), polls[1..])
  }

  // ---------- traces ----------

  datatype Mark = Mark(status: string, phase: string)

  function MarkOf(item: Feedback): Mark {
    Mark(item.status, item.phase)
  }

  /** The trace with consecutive repeats removed. */
  function Trace(items: seq<Feedback>): seq<Mark> {
    if items == [] then []
    else
      var front := Trace(items[..|items| - 1]);
      var mark := MarkOf(items[|items| - 1]);
      if |items| > 1 && MarkOf(items[|items| - 2]) == mark then front else front + [mark]
  }

  lemma TraceSnoc(items: seq<Feedback>, item: Feedback)
    ensures Trace(items + [item]) ==
            if items != [] && MarkOf(items[|items| - 1]) == MarkOf(item) then Trace(items)
            else Trace(items) + [MarkOf(item)]
  {
    assert (items + [item])[..|items|] == items;
  }

  // ---------- what holds after every record ----------

  /** The emitted records end where the throttle remembers, and show the trace of those seen. */
  ghost predicate SameTrace(s: Stream, seen: seq<Feedback>) {
    var t, out := s.throttle, s.emitted;
    && Trace(out) == Trace(seen)
    && (seen == [] <==> out == []) && (out == [] <==> t.lastEmittedAt.None?)
    && (out != [] ==> MarkOf(out[|out| - 1]) == Mark(t.lastStatus, t.lastPhase) == MarkOf(seen[|seen| - 1]))
    && (seen != [] ==> seen[|seen| - 1].sequence == s.cursor)
    && (t.pending.Some? ==> seen != [] && t.pending.value == seen[|seen| - 1])
    && (t.pending.None? && out != [] ==> out[|out| - 1] == seen[|seen| - 1])
  }

  /** Sequences rise, nothing is invented, and no error or critical record is held back. */
  ghost predicate Ordered(s: Stream, seen: seq<Feedback>) {
    var t, out := s.throttle, s.emitted;
    && (forall i, j :: 0 <= i < j < |out| ==> out[i].sequence < out[j].sequence)
    && (forall i :: 0 <= i < |out| ==> out[i].sequence <= s.cursor && out[i] in seen)
    && (forall i :: 0 <= i < |seen| && Important(seen[i]) ==> seen[i] in out)
    && (t.interval <= 0 ==> out == seen && t.pending.None?)
    && (t.pending.Some? ==> t.pending.value in seen && t.pending.value.sequence == s.cursor
                            && (out != [] ==> out[|out| - 1].sequence < s.cursor))
  }

  ghost predicate Faithful(s: Stream, seen: seq<Feedback>) {
    SameTrace(s, seen) && Ordered(s, seen)
  }

  lemma OfferKeepsTrace(s: Stream, seen: seq<Feedback>, item: Feedback, now: int)
    requires SameTrace(s, seen) && item.sequence > s.cursor
    ensures SameTrace(Offer(s, item, now), seen + [item])
  {
    TraceSnoc(seen, item);
    TraceSnoc(s.emitted, item);
  }

  lemma EmitKeepsOrder(s: Stream, seen: seq<Feedback>, item: Feedback, now: int)
    requires Ordered(s, seen) && item.sequence > s.cursor
    ensures Ordered(Emit(s.(cursor := item.sequence), item, now), seen + [item])
  {
    var out := s.emitted + [item];
    assert item in seen + [item] && item in out;
    assert forall x :: x in seen ==> x in seen + [item];
    assert forall x :: x in s.emitted ==> x in out;
    assert forall i :: 0 <= i < |seen| ==> (seen + [item])[i] == seen[i];
  }

  lemma OfferKeepsOrder(s: Stream, seen: seq<Feedback>, item: Feedback, now: int)
    requires Ordered(s, seen) && item.sequence > s.cursor
    ensures Ordered(Offer(s, item, now), seen + [item])
  {
    if s.throttle.interval <= 0 || Changed(s.throttle, item) || Important(item) {
      EmitKeepsOrder(s, seen, item, now);
    } else {
      assert item in seen + [item];
      assert forall x :: x in seen ==> x in seen + [item];
      assert forall i :: 0 <= i < |seen| ==> (seen + [item])[i] == seen[i];
    }
  }

  lemma {:induction false} OfferAllKeepsFaithful(s: Stream, seen: seq<Feedback>, incoming: seq<Feedback>, now: int)
    requires Faithful(s, seen)
    ensures Faithful(OfferAll(s, incoming, now), seen + Fresh(s.cursor, incoming))
    ensures OfferAll(s, incoming, now).cursor == Top(s.cursor, incoming)
    decreases |incoming|
  {
    hide SameTrace, Ordered;
    if incoming == [] {
      assert seen + [] == seen;
    } else {
      var item := incoming[0];
      var r := Offer(s, item, now);
      if item.sequence <= s.cursor {
        OfferAllKeepsFaithful(s, seen, incoming[1..], now);
      } else {
        OfferKeepsTrace(s, seen, item, now);
        OfferKeepsOrder(s, seen, item, now);
        OfferAllKeepsFaithful(r, seen + [item], incoming[1..], now);
        assert seen + [item] + Fresh(item.sequence, incoming[1..]) == seen + Fresh(s.cursor, incoming);
      }
    }
  }

  lemma FlushKeepsTrace(s: Stream, seen: seq<Feedback>, terminal: bool, now: int)
    requires SameTrace(s, seen)
    ensures SameTrace(Flush(s, terminal, now), seen)
  {
    if Due(s.throttle, terminal, now) {
      TraceSnoc(s.emitted, s.throttle.pending.value);
    }
  }

  lemma FlushKeepsOrder(s: Stream, seen: seq<Feedback>, terminal: bool, now: int)
    requires Ordered(s, seen)
    ensures Ordered(Flush(s, terminal, now), seen)
  {
    if Due(s.throttle, terminal, now) {
      var out := s.emitted + [s.throttle.pending.value];
      assert forall x :: x in s.emitted ==> x in out;
    }
  }

  lemma FlushKeepsFaithful(s: Stream, seen: seq<Feedback>, terminal: bool, now: int)
    requires Faithful(s, seen)
    ensures Faithful(Flush(s, terminal, now), seen)
    ensures terminal ==> Flush(s, terminal, now).throttle.pending.None?
  {
    hide SameTrace, Ordered;
    FlushKeepsTrace(s, seen, terminal, now);
    FlushKeepsOrder(s, seen, terminal, now);
  }

  lemma PollKeepsFaithful(s: Stream, seen: seq<Feedback>, poll: Poll)
    requires Faithful(s, seen)
    ensures Faithful(ApplyPoll(s, poll), seen + Fresh(s.cursor, poll.incoming))
    ensures ApplyPoll(s, poll).cursor == Top(s.cursor, poll.incoming)
    ensures poll.terminal ==> ApplyPoll(s, poll).throttle.pending.None?
  {
    OfferAllKeepsFaithful(s, seen, poll.incoming, poll.now);
    FlushKeepsFaithful(OfferAll(s, poll.incoming, poll.now), seen + Fresh(s.cursor, poll.incoming),
                       poll.terminal, poll.now);
  }

  lemma {:induction false} PollsKeepFaithful(s: Stream, seen: seq<Feedback>, polls: seq<Poll>)
    requires Faithful(s, seen)
    ensures Faithful(RunPolls(s, polls), seen + FreshOver(s.cursor, polls))
    ensures polls != [] && polls[|polls| - 1].terminal ==> RunPolls(s, polls).throttle.pending.None?
    decreases |polls|
  {
    hide Faithful, ApplyPoll;
    if polls == [] {
      assert seen + [] == seen;
    } else {
      PollKeepsFaithful(s, seen, polls[0]);
      var r := ApplyPoll(s, polls[0]);
      var more := Fresh(s.cursor, polls[0].incoming);
      PollsKeepFaithful(r, seen + more, polls[1..]);
      assert seen + more + FreshOver(r.cursor, polls[1..]) == seen + FreshOver(s.cursor, polls);
    }
  }

  /** What a reader of the throttled stream can rely on, given what came in. */
  ghost predicate KeepsMeaning(s: Stream, seen: seq<Feedback>) {
    && Trace(s.emitted) == Trace(seen)
    && (forall x :: x in seen && Important(x) ==> x in s.emitted)
    && (forall x :: x in s.emitted ==> x in seen)
    && (forall i, j :: 0 <= i < j < |s.emitted| ==> s.emitted[i].sequence < s.emitted[j].sequence)
    && (s.throttle.pending.Some? ==> s.throttle.pending.value.sequence == s.cursor)
    && (s.throttle.pending.None? && seen != [] ==>
          s.emitted != [] && s.emitted[|s.emitted| - 1].sequence == s.cursor)
    && (s.throttle.interval <= 0 ==> s.emitted == seen)
  }

  lemma FaithfulKeepsMeaning(s: Stream, seen: seq<Feedback>)
    requires Faithful(s, seen)
    ensures KeepsMeaning(s, seen)
  {
    assert SameTrace(s, seen) && Ordered(s, seen);
  }

  /** Over any sequence of polls under one throttle, what was emitted tells the same story as what
      came in: the same trace, every error and critical record, strictly rising sequences, and
      after a terminal poll nothing left behind. */
  lemma ThrottleKeepsMeaning(interval: int, cursor: int, polls: seq<Poll>)
    ensures KeepsMeaning(RunPolls(Start(interval, cursor), polls), FreshOver(cursor, polls))
    ensures polls != [] && polls[|polls| - 1].terminal ==>
              RunPolls(Start(interval, cursor), polls).throttle.pending.None?
  {
    var s, seen := RunPolls(Start(interval, cursor), polls), FreshOver(cursor, polls);
    assert Faithful(Start(interval, cursor), []);
    hide Faithful, KeepsMeaning, RunPolls, FreshOver;
    PollsKeepFaithful(Start(interval, cursor), [], polls);
    assert [] + seen == seen;
    FaithfulKeepsMeaning(s, seen);
  }

  // ---------- spacing ----------

  /** An emission, when it was made, and whether the action had ended by then. */
  datatype Emission = Emission(item: Feedback, at: int, terminal: bool)

  /** What a stream emitted beyond its first records, if one poll added it. */
  function LogOf(s: Stream, base: nat, poll: Poll): (log: seq<Emission>)
    requires base <= |s.emitted|
    ensures |log| == |s.emitted| - base
  {
    seq(|s.emitted| - base, i requires 0 <= i < |s.emitted| - base =>
        Emission(s.emitted[base + i], poll.now, poll.terminal))
  }

  function Added(s: Stream, poll: Poll): seq<Emission> {
    LogOf(ApplyPoll(s, poll), |s.emitted|, poll)
  }

  function Emissions(s: Stream, polls: seq<Poll>): seq<Emission>
    decreases |polls|
  {
    if polls == [] then []
    else Added(s, polls[0]) + Emissions(ApplyPoll(s, polls[0]), polls[1..])
  }

  /** Why an emission may follow another: something changed, it matters, the action is over, or
      the interval has passed. */
  predicate Justified(interval: int, earlier: Emission, later: Emission) {
    || interval <= 0
    || MarkOf(later.item) != MarkOf(earlier.item)
    || Important(later.item)
    || later.terminal
    || later.at - earlier.at >= interval
  }

  /** The last emission is the one the throttle remembers. */
  predicate Remembers(t: State, log: seq<Emission>) {
    && (log == [] <==> t.lastEmittedAt.None?)
    && (log != [] ==> var e := log[|log| - 1];
        t.lastEmittedAt == Some(e.at) && MarkOf(e.item) == Mark(t.lastStatus, t.lastPhase))
    && (t.pending.Some? ==> t.lastEmittedAt.Some?)
  }

  predicate Spaced(interval: int, log: seq<Emission>) {
    forall k :: 0 < k < |log| ==> Justified(interval, log[k - 1], log[k])
  }

  lemma EmitIsSpaced(s: Stream, log: seq<Emission>, item: Feedback, poll: Poll)
    requires Remembers(s.throttle, log) && Spaced(s.throttle.interval, log)
    requires s.throttle.interval <= 0 || Changed(s.throttle, item) || Important(item)
             || poll.terminal || poll.now - s.throttle.lastEmittedAt.value >= s.throttle.interval
    ensures Remembers(Emit(s, item, poll.now).throttle, log + [Emission(item, poll.now, poll.terminal)])
    ensures Spaced(s.throttle.interval, log + [Emission(item, poll.now, poll.terminal)])
  {
  }

  lemma {:induction false} OffersAreSpaced(
    s: Stream, base: nat, log: seq<Emission>, incoming: seq<Feedback>, poll: Poll)
    requires base <= |s.emitted|
    requires Remembers(s.throttle, log + LogOf(s, base, poll))
    requires Spaced(s.throttle.interval, log + LogOf(s, base, poll))
    ensures var r := OfferAll(s, incoming, poll.now);
      && |s.emitted| <= |r.emitted| && r.throttle.interval == s.throttle.interval
      && Remembers(r.throttle, log + LogOf(r, base, poll))
      && Spaced(r.throttle.interval, log + LogOf(r, base, poll))
    decreases |incoming|
  {
    if incoming != [] {
      var r := Offer(s, incoming[0], poll.now);
      if r.emitted != s.emitted {
        var e := Emission(incoming[0], poll.now, poll.terminal);
        EmitIsSpaced(s.(cursor := incoming[0].sequence), log + LogOf(s, base, poll), incoming[0], poll);
        assert log + LogOf(r, base, poll) == log + LogOf(s, base, poll) + [e];
      } else {
        assert LogOf(r, base, poll) == LogOf(s, base, poll);
      }
      OffersAreSpaced(r, base, log, incoming[1..], poll);
    }
  }

  lemma FlushIsSpaced(s: Stream, base: nat, log: seq<Emission>, poll: Poll)
    requires base <= |s.emitted| && Due(s.throttle, poll.terminal, poll.now)
    requires Remembers(s.throttle, log + LogOf(s, base, poll))
    requires Spaced(s.throttle.interval, log + LogOf(s, base, poll))
    ensures var r := Emit(s, s.throttle.pending.value, poll.now);
      && |s.emitted| <= |r.emitted| && r.throttle.interval == s.throttle.interval
      && Remembers(r.throttle, log + LogOf(r, base, poll))
      && Spaced(r.throttle.interval, log + LogOf(r, base, poll))
  {
    var item := s.throttle.pending.value;
    EmitIsSpaced(s, log + LogOf(s, base, poll), item, poll);
    assert log + LogOf(Emit(s, item, poll.now), base, poll) ==
           log + LogOf(s, base, poll) + [Emission(item, poll.now, poll.terminal)];
    hide Remembers, Spaced;
  }

  lemma PollIsSpaced(s: Stream, log: seq<Emission>, poll: Poll)
    requires Remembers(s.throttle, log) && Spaced(s.throttle.interval, log)
    ensures var r := ApplyPoll(s, poll);
      && r.throttle.interval == s.throttle.interval
      && Remembers(r.throttle, log + Added(s, poll)) && Spaced(r.throttle.interval, log + Added(s, poll))
  {
    var base := |s.emitted|;
    var mid := OfferAll(s, poll.incoming, poll.now);
    assert log + LogOf(s, base, poll) == log;
    OffersAreSpaced(s, base, log, poll.incoming, poll);
    hide Remembers, Spaced, Emit, LogOf, OfferAll;
    if Due(mid.throttle, poll.terminal, poll.now) {
      FlushIsSpaced(mid, base, log, poll);
    }
  }

  lemma {:induction false} PollsAreSpaced(s: Stream, log: seq<Emission>, polls: seq<Poll>)
    requires Remembers(s.throttle, log) && Spaced(s.throttle.interval, log)
    ensures Spaced(s.throttle.interval, log + Emissions(s, polls))
    decreases |polls|
  {
    hide Spaced, Remembers, ApplyPoll, Added;
    if polls == [] {
      assert log + [] == log;
    } else {
      PollIsSpaced(s, log, polls[0]);
      PollsAreSpaced(ApplyPoll(s, polls[0]), log + Added(s, polls[0]), polls[1..]);
      assert log + Added(s, polls[0]) + Emissions(ApplyPoll(s, polls[0]), polls[1..])
          == log + Emissions(s, polls);
    }
  }

  /** An unchanged ordinary record is let through only at a terminal status or a full interval
      after the emission before it. */
  lemma RepeatsAreSpaced(interval: int, cursor: int, polls: seq<Poll>)
    ensures Spaced(interval, Emissions(Start(interval, cursor), polls))
  {
    PollsAreSpaced(Start(interval, cursor), [], polls);
    assert [] + Emissions(Start(interval, cursor), polls) == Emissions(Start(interval, cursor), polls);
  }

  // ---------- reading the emitted records ----------

  predicate Rising(items: seq<Feedback>) {
    forall i, j :: 0 <= i < j < |items| ==> items[i].sequence < items[j].sequence
  }

  /** The records above a reader's last sequence, in order. */
  function After(items: seq<Feedback>, sequence: int): seq<Feedback>
    decreases |items|
  {
    if items == [] then []
    else
      var last := items[|items| - 1];
      After(items[..|items| - 1], sequence) + if last.sequence > sequence then [last] else []
  }

  lemma {:induction false} AfterConcat(first: seq<Feedback>, second: seq<Feedback>, sequence: int)
    ensures After(first + second, sequence) == After(first, sequence) + After(second, sequence)
    decreases |second|
  {
    if second == [] {
      assert first + second == first;
    } else {
      var n := |second| - 1;
      AfterConcat(first, second[..n], sequence);
      assert (first + second)[..|first| + n] == first + second[..n] && (first + second)[|first| + n] == second[n];
    }
  }

  lemma {:induction false} AfterAllOrNone(items: seq<Feedback>, sequence: int)
    ensures (forall x <- items :: x.sequence > sequence) ==> After(items, sequence) == items
    ensures (forall x <- items :: x.sequence <= sequence) ==> After(items, sequence) == []
    decreases |items|
  {
    if items != [] {
      var n := |items| - 1;
      AfterAllOrNone(items[..n], sequence);
      assert items == items[..n] + [items[n]];
    }
  }

  /** Reading on from the last record read returns just what has been emitted since: over two reads
      of a growing stream nothing is missed and nothing comes twice. */
  lemma ReadersMissNothing(earlier: seq<Feedback>, later: seq<Feedback>, from: int)
    requires earlier <= later && Rising(later)
    ensures var read := After(earlier, from);
      var last := if read == [] then from else read[|read| - 1].sequence;
      After(later, from) == read + After(later, last)
  {
    if After(earlier, from) != [] {
      ReadEndsAtTheLast(earlier, from);
      ReadOn(earlier, later[|earlier|..], from);
      assert later == earlier + later[|earlier|..];
    }
    hide After;
  }

  /** What was emitted before is not above the last sequence read, and what came later is. */
  lemma RisingSplits(earlier: seq<Feedback>, rest: seq<Feedback>)
    requires earlier != [] && Rising(earlier + rest)
    ensures forall x <- earlier :: x.sequence <= earlier[|earlier| - 1].sequence
    ensures forall x <- rest :: x.sequence > earlier[|earlier| - 1].sequence
  {
    var all, n := earlier + rest, |earlier|;
    assert all[n - 1] == earlier[n - 1];
    assert forall i :: 0 <= i < n ==> all[i] == earlier[i];
    assert forall i :: 0 <= i < |rest| ==> all[n + i] == rest[i];
    forall x | x in rest ensures x.sequence > earlier[n - 1].sequence {
      var i :| 0 <= i < |rest| && rest[i] == x;
      assert all[n + i].sequence > all[n - 1].sequence;
    }
  }

  lemma ReadOn(earlier: seq<Feedback>, rest: seq<Feedback>, from: int)
    requires earlier != [] && Rising(earlier + rest) && earlier[|earlier| - 1].sequence > from
    ensures After(earlier + rest, from) == After(earlier, from) + After(earlier + rest, earlier[|earlier| - 1].sequence)
  {
    var last := earlier[|earlier| - 1].sequence;
    RisingSplits(earlier, rest);
    hide After, Rising;
    assert After(earlier + rest, last) == rest by {
      AfterConcat(earlier, rest, last);
      AfterAllOrNone(earlier, last);
      AfterAllOrNone(rest, last);
      assert [] + rest == rest;
    }
    assert After(earlier + rest, from) == After(earlier, from) + rest by {
      AfterConcat(earlier, rest, from);
      assert forall x <- rest :: x.sequence > from;
      AfterAllOrNone(rest, from);
    }
  }

  lemma ReadEndsAtTheLast(items: seq<Feedback>, from: int)
    requires Rising(items) && After(items, from) != []
    ensures After(items, from)[|After(items, from)| - 1] == items[|items| - 1] && items[|items| - 1].sequence > from
  {
    var last := items[|items| - 1];
    if last.sequence <= from {
      assert forall x <- items :: x.sequence <= last.sequence;
      AfterAllOrNone(items, from);
    }
  }

  /** The throttle's fields and the loop over a batch, in the program's order. */
  class FeedbackThrottle {
    var interval: int
    var lastEmittedAt: Option<int>
    var lastStatus: string
    var lastPhase: string
    var pending: Option<Feedback>

    constructor From(t: State)
      ensures Value() == t
    {
      interval, lastEmittedAt, lastStatus, lastPhase, pending :=
        t.interval, t.lastEmittedAt, t.lastStatus, t.lastPhase, t.pending;
    }

    function Value(): State
      reads this
    {
      State(interval, lastEmittedAt, lastStatus, lastPhase, pending)
    }

    method EmitItem(item: Feedback, now: int)
      modifies this
      ensures Value() == State(old(interval), Some(now), item.status, item.phase, None)
    {
      lastEmittedAt := Some(now);
      lastStatus, lastPhase := item.status, item.phase;
      pending := None;
    }

    method Apply(cursor: int, feedback: seq<Feedback>, poll: Poll) returns (cursor': int, feedback': seq<Feedback>)
      modifies this
      ensures Stream(Value(), cursor', feedback') == ApplyPoll(Stream(old(Value()), cursor, feedback), poll)
    {
      cursor', feedback' := cursor, feedback;
      var i := 0;
      ghost var before := Stream(Value(), cursor, feedback);
      assert poll.incoming[0..] == poll.incoming;
      while i < |poll.incoming|
        invariant 0 <= i <= |poll.incoming|
        invariant OfferAll(Stream(Value(), cursor', feedback'), poll.incoming[i..], poll.now)
               == OfferAll(before, poll.incoming, poll.now)
      {
        var item := poll.incoming[i];
        assert poll.incoming[i..][1..] == poll.incoming[i + 1..];
        i := i + 1;
        if item.sequence <= cursor' {
          continue;
        }
        cursor' := item.sequence;
        var changed := lastEmittedAt.None? || item.status != lastStatus || item.phase != lastPhase;
        var important := item.severity == "error" || item.severity == "critical";
        if interval <= 0 || changed || important {
          feedback' := feedback' + [item];
          EmitItem(item, poll.now);
          continue;
        }
        pending := Some(item);
      }
      if pending.Some? && (poll.terminal || lastEmittedAt.None? || poll.now - lastEmittedAt.value >= interval) {
        feedback' := feedback' + [pending.value];
        EmitItem(pending.value, poll.now);
      }
    }
  }
}
