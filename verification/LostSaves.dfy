/** Feedback when journal writes after a report fail: the throttle in memory has moved on, the record has
    not, and the Ability is asked again from the record's cursor. */
module LostSaves {
  import opened Common
  import ActionJournal
  import Runner
  import opened Throttle

  /** One question to the Ability, whose log has grown to upTo records, and whether what comes of it is
      stored; a terminal answer ends the throttle in any case. */
  datatype Ask = Ask(upTo: nat, now: int, terminal: bool, works: bool)

  function Answered(log: seq<Feedback>, s: Stream, ask: Ask): (r: Stream)
    requires ask.upTo <= |log|
    ensures s.emitted <= r.emitted
  {
    ApplyPoll(s, Poll(log[..ask.upTo], ask.now, ask.terminal))
  }

  function Kept(s: Stream, r: Stream, ask: Ask): Stream {
    (if ask.works then r else s).(throttle := if ask.terminal then NewThrottle(0) else r.throttle)
  }

  /** The stored feedback of an action with the throttle in memory; a missing one is made anew. */
  function StreamOf(s: Runner.State, id: string): Stream
    requires id in s.journal.byID
  {
    Stream(if id in s.throttles then s.throttles[id] else NewThrottle(0),
           s.journal.byID[id].cursor, s.journal.byID[id].feedback)
  }

  /** This is what a report does to an action's feedback in the runner, whether or not it is stored. */
  lemma ReportIsKept(s: Runner.State, id: string, reply: Runner.AbilityState, now: int, works: bool)
    requires ActionJournal.WellIndexed(s.journal) && id in s.journal.byID
    ensures var t := Runner.ApplyAbility(s, s.journal.byID[id], reply, now, works).0;
      var terminal := ActionJournal.Terminal(Runner.Normalize(reply.status));
      && id in t.journal.byID
      && StreamOf(t, id) ==
           Kept(StreamOf(s, id), ApplyPoll(StreamOf(s, id), Poll(reply.feedback, now, terminal)),
                Ask(0, now, terminal, works))
  {
    var a := s.journal.byID[id];
    var (t, b) := Runner.ApplyAbility(s, a, reply, now, works);
    Runner.AbilityChangesOneRecord(s, a, reply, now, works);
    assert !ActionJournal.Conflicts(s.journal, b);
    hide Runner.Normalize, ApplyPoll, ActionJournal.KeyOf;
  }

  /** The log only grows. */
  predicate Asked(log: seq<Feedback>, from: nat, asks: seq<Ask>)
    decreases |asks|
  {
    asks == [] || (from <= asks[0].upTo <= |log| && Asked(log, asks[0].upTo, asks[1..]))
  }

  function RunAsks(log: seq<Feedback>, from: nat, s: Stream, asks: seq<Ask>): Stream
    requires Asked(log, from, asks)
    decreases |asks|
  {
    if asks == [] then s
    else RunAsks(log, asks[0].upTo, Kept(s, Answered(log, s, asks[0]), asks[0]), asks[1..])
  }

  // ---------- what failed writes cannot do ----------

  /** Beyond the first cursor, the stored records come from the log, in its order, each once, with every
      error and critical one up to the cursor; an unstored pending record will be asked for again. */
  ghost predicate Honest(log: seq<Feedback>, first: int, n: nat, s: Stream)
    requires n <= |log|
  {
    var out, pending := s.emitted, s.throttle.pending;
    && first <= s.cursor
    && (forall i, j :: 0 <= i < j < |out| ==> out[i].sequence < out[j].sequence)
    && (forall x <- out :: x in log && x.sequence <= s.cursor)
    && (forall x <- log :: first < x.sequence <= s.cursor && Important(x) ==> x in out)
    && (pending.Some? ==> Waits(log[..n], s))
  }

  predicate Waits(log: seq<Feedback>, s: Stream)
    requires s.throttle.pending.Some?
  {
    var pending, out := s.throttle.pending.value, s.emitted;
    && pending in log
    && (pending.sequence > s.cursor
        || (pending.sequence == s.cursor && (out == [] || out[|out| - 1].sequence < s.cursor)))
  }

  predicate ReadUpTo(log: seq<Feedback>, i: nat, cursor: int)
    requires i <= |log|
  {
    forall k :: 0 <= k < i ==> log[k].sequence <= cursor
  }

  lemma OfferIsHonest(log: seq<Feedback>, first: int, i: nat, n: nat, s: Stream, now: int)
    requires Rising(log) && i < n <= |log| && Honest(log, first, n, s) && ReadUpTo(log, i, s.cursor)
    ensures var r := Offer(s, log[i], now); Honest(log, first, n, r) && ReadUpTo(log, i + 1, r.cursor)
  {
    var r, item := Offer(s, log[i], now), log[i];
    if item.sequence > s.cursor {
      assert item in log && item in log[..n] by {
        assert log[..n][i] == item;
      }
      forall x | x in log && first < x.sequence <= r.cursor && Important(x) ensures x in r.emitted {
        var k :| 0 <= k < |log| && log[k] == x;
        assert k > i ==> item.sequence < x.sequence;
        assert k < i ==> x.sequence <= s.cursor;
      }
    }
  }

  lemma {:induction false} OffersAreHonest(log: seq<Feedback>, first: int, i: nat, n: nat, s: Stream, now: int)
    requires Rising(log) && i <= n <= |log| && Honest(log, first, n, s) && ReadUpTo(log, i, s.cursor)
    ensures var r := OfferAll(s, log[i..n], now); Honest(log, first, n, r) && ReadUpTo(log, n, r.cursor)
    ensures OfferAll(s, log[i..n], now).cursor >= s.cursor
    decreases n - i
  {
    if i < n {
      OfferIsHonest(log, first, i, n, s, now);
      assert log[i..n][0] == log[i] && log[i..n][1..] == log[i + 1..n];
      var r := Offer(s, log[i], now);
      assert OfferAll(s, log[i..n], now) == OfferAll(r, log[i + 1..n], now) && r.cursor >= s.cursor;
      hide Honest, ReadUpTo, OfferAll, Offer, Rising;
      OffersAreHonest(log, first, i + 1, n, r, now);
    }
  }

  /** Once the log has been read, a pending record is the one at the cursor. */
  lemma PendingIsCurrent(log: seq<Feedback>, first: int, n: nat, s: Stream)
    requires n <= |log| && Honest(log, first, n, s) && ReadUpTo(log, n, s.cursor) && s.throttle.pending.Some?
    ensures s.throttle.pending.value in log && s.throttle.pending.value.sequence == s.cursor
    ensures s.emitted == [] || s.emitted[|s.emitted| - 1].sequence < s.cursor
  {
    var k :| 0 <= k < n && log[..n][k] == s.throttle.pending.value;
    assert log[k] == s.throttle.pending.value;
  }

  lemma FlushIsHonest(log: seq<Feedback>, first: int, n: nat, s: Stream, terminal: bool, now: int)
    requires n <= |log| && Honest(log, first, n, s) && ReadUpTo(log, n, s.cursor)
    ensures var r := Flush(s, terminal, now);
      && Honest(log, first, n, r)
      && (r.throttle.pending.Some? ==> r.throttle.pending.value.sequence == r.cursor)
  {
    if s.throttle.pending.Some? {
      PendingIsCurrent(log, first, n, s);
    }
    hide ReadUpTo;
  }

  lemma AnswerIsHonest(log: seq<Feedback>, first: int, s: Stream, ask: Ask)
    requires Rising(log) && ask.upTo <= |log| && Honest(log, first, ask.upTo, s)
    ensures var r := Answered(log, s, ask);
      && Honest(log, first, ask.upTo, r) && r.cursor >= s.cursor
      && (r.throttle.pending.Some? ==> r.throttle.pending.value.sequence == r.cursor)
  {
    var n := ask.upTo;
    assert log[0..n] == log[..n];
    OffersAreHonest(log, first, 0, n, s, ask.now);
    hide OfferAll, Rising, Honest, ReadUpTo;
    FlushIsHonest(log, first, n, OfferAll(s, log[..n], ask.now), ask.terminal, ask.now);
  }

  lemma KeptIsHonest(log: seq<Feedback>, first: int, s: Stream, ask: Ask)
    requires Rising(log) && ask.upTo <= |log| && Honest(log, first, ask.upTo, s)
    ensures Honest(log, first, ask.upTo, Kept(s, Answered(log, s, ask), ask))
  {
    AnswerIsHonest(log, first, s, ask);
    var r := Answered(log, s, ask);
    hide Answered, Rising;
    if s.emitted != [] {
      assert r.emitted[|s.emitted| - 1] == s.emitted[|s.emitted| - 1];
    }
  }

  lemma MoreIsHonest(log: seq<Feedback>, first: int, n: nat, m: nat, s: Stream)
    requires n <= m <= |log| && Honest(log, first, n, s)
    ensures Honest(log, first, m, s)
  {
    assert forall x :: x in log[..n] ==> x in log[..m];
  }

  lemma {:induction false} RunIsHonest(log: seq<Feedback>, first: int, from: nat, s: Stream, asks: seq<Ask>)
    requires Rising(log) && from <= |log| && Asked(log, from, asks) && Honest(log, first, from, s)
    ensures Honest(log, first, |log|, RunAsks(log, from, s, asks))
    decreases |asks|
  {
    if asks == [] {
      MoreIsHonest(log, first, from, |log|, s);
    } else {
      MoreIsHonest(log, first, from, asks[0].upTo, s);
      KeptIsHonest(log, first, s, asks[0]);
      hide Honest, Kept, Answered, Rising;
      RunIsHonest(log, first, asks[0].upTo, Kept(s, Answered(log, s, asks[0]), asks[0]), asks[1..]);
    }
  }

  /** Whichever writes fail: what is stored comes from the Ability's log, in order and each once, and
      contains every error and critical record up to the stored cursor. */
  lemma StoredIsHonest(log: seq<Feedback>, interval: int, first: int, asks: seq<Ask>)
    requires Rising(log) && Asked(log, 0, asks)
    ensures var s := RunAsks(log, 0, Start(interval, first), asks);
      && Rising(s.emitted)
      && (forall x <- s.emitted :: x in log && x.sequence <= s.cursor)
      && (forall x <- log :: first < x.sequence <= s.cursor && Important(x) ==> x in s.emitted)
  {
    RunIsHonest(log, first, 0, Start(interval, first), asks);
  }

  // ---------- what they can do ----------

  /** A change of status or phase can be lost: it is let through in an answer that is not stored, comes
      again, is now taken for a repeat, and the next change replaces it. */
  lemma ChangeIsLost(a: Feedback, b: Feedback, c: Feedback, interval: int)
    requires a.sequence < b.sequence < c.sequence && !Important(b) && interval > 0
    requires MarkOf(a) != MarkOf(b) && MarkOf(b) != MarkOf(c)
    ensures var log := [a, b, c];
      var asks := [Ask(1, 0, false, true)] + ([Ask(2, 0, false, false)] + [Ask(3, 0, false, true)]);
      && Rising(log) && Asked(log, 0, asks)
      && RunAsks(log, 0, Start(interval, a.sequence - 1), asks).emitted == [a, c]
  {
    var log := [a, b, c];
    var x, y, z := Ask(1, 0, false, true), Ask(2, 0, false, false), Ask(3, 0, false, true);
    var s0 := Start(interval, a.sequence - 1);
    var s1 := Stream(Remembering(interval, a), a.sequence, [a]);
    var s2 := Stream(Remembering(interval, b), a.sequence, [a]);
    var s3 := Stream(Remembering(interval, c), c.sequence, [a, c]);
    assert log[..1] == [a] + [] && log[..2] == [a] + ([b] + []) && log[..3] == [a] + ([b] + ([c] + []));
    assert OfferAll(s0, [a] + [], 0) == s1 by {
      Offers(s0, a, [], 0);
    }
    assert OfferAll(s1, [a] + ([b] + []), 0) == Stream(Remembering(interval, b), b.sequence, [a, b]) by {
      Offers(s1, a, [b] + [], 0);
      Offers(s1, b, [], 0);
    }
    assert OfferAll(s2, [a] + ([b] + ([c] + [])), 0) == s3 by {
      var held := Stream(Remembering(interval, b).(pending := Some(b)), b.sequence, [a]);
      Offers(s2, a, [b] + ([c] + []), 0);
      Offers(s2, b, [c] + [], 0);
      Offers(held, c, [], 0);
    }
    hide OfferAll;
    assert Kept(s0, Answered(log, s0, x), x) == s1 && Kept(s1, Answered(log, s1, y), y) == s2;
    assert Kept(s2, Answered(log, s2, z), z) == s3;
    hide Kept, Answered;
    Asks(log, 2, s2, z, []);
    Asks(log, 1, s1, y, [z]);
    Asks(log, 0, s0, x, [y] + [z]);
    assert [z] + [] == [z];
  }

  /** The throttle after an emission at time 0. */
  function Remembering(interval: int, item: Feedback): Throttle.State {
    Throttle.State(interval, Some(0), item.status, item.phase, None)
  }

  lemma Offers(s: Stream, item: Feedback, rest: seq<Feedback>, now: int)
    ensures OfferAll(s, [item] + rest, now) == OfferAll(Offer(s, item, now), rest, now)
    ensures OfferAll(s, [], now) == s
  {
    assert ([item] + rest)[1..] == rest;
    hide Offer;
  }

  lemma Asks(log: seq<Feedback>, from: nat, s: Stream, ask: Ask, rest: seq<Ask>)
    requires from <= ask.upTo <= |log| && Asked(log, ask.upTo, rest)
    ensures Asked(log, from, [ask] + rest)
    ensures RunAsks(log, from, s, [ask] + rest) ==
            RunAsks(log, ask.upTo, Kept(s, Answered(log, s, ask), ask), rest)
  {
    assert ([ask] + rest)[1..] == rest;
    hide Kept, Answered;
  }

  // ---------- when the trace survives ----------

  /** The throttle remembers the mark of the last stored record, or lets everything through. */
  predicate InStep(s: Stream) {
    var t, out := s.throttle, s.emitted;
    t.interval <= 0
    || ((out == [] <==> t.lastEmittedAt.None?)
        && (out != [] ==> MarkOf(out[|out| - 1]) == Mark(t.lastStatus, t.lastPhase)))
  }

  predicate PendingFits(t: Throttle.State) {
    t.pending.Some? ==>
      t.interval > 0 && t.lastEmittedAt.Some? && MarkOf(t.pending.value) == Mark(t.lastStatus, t.lastPhase)
  }

  /** The stored records show the trace of those seen. */
  ghost predicate Follows(s: Stream, seen: seq<Feedback>) {
    var out := s.emitted;
    && Trace(out) == Trace(seen) && (out == [] <==> seen == [])
    && (out != [] ==> MarkOf(out[|out| - 1]) == MarkOf(seen[|seen| - 1]))
  }

  ghost predicate Tracks(s: Stream, seen: seq<Feedback>) {
    Follows(s, seen) && InStep(s) && PendingFits(s.throttle)
  }

  lemma OfferTracks(s: Stream, seen: seq<Feedback>, item: Feedback, now: int)
    requires Tracks(s, seen) && item.sequence > s.cursor
    ensures Tracks(Offer(s, item, now), seen + [item])
  {
    TraceSnoc(seen, item);
    TraceSnoc(s.emitted, item);
    hide Trace;
  }

  lemma Regroup(a: seq<Feedback>, b: seq<Feedback>, c: seq<Feedback>)
    ensures a + b + c == a + (b + c)
  {
  }

  lemma {:induction false} OffersTrack(s: Stream, seen: seq<Feedback>, incoming: seq<Feedback>, now: int)
    requires Tracks(s, seen)
    ensures Tracks(OfferAll(s, incoming, now), seen + Fresh(s.cursor, incoming))
    decreases |incoming|
  {
    hide Tracks;
    if incoming == [] {
      assert seen + [] == seen;
    } else {
      var item, rest := incoming[0], incoming[1..];
      var r := Offer(s, item, now);
      assert OfferAll(s, incoming, now) == OfferAll(r, rest, now);
      if item.sequence <= s.cursor {
        assert r == s && Fresh(s.cursor, incoming) == Fresh(s.cursor, rest);
        hide Offer, OfferAll, Fresh;
        OffersTrack(s, seen, rest, now);
      } else {
        assert Fresh(s.cursor, incoming) == [item] + Fresh(item.sequence, rest) && r.cursor == item.sequence;
        OfferTracks(s, seen, item, now);
        hide Offer, OfferAll, Fresh;
        OffersTrack(r, seen + [item], rest, now);
        Regroup(seen, [item], Fresh(item.sequence, rest));
      }
    }
  }

  lemma FlushTracks(s: Stream, seen: seq<Feedback>, terminal: bool, now: int)
    requires Tracks(s, seen)
    ensures Tracks(Flush(s, terminal, now), seen)
  {
    if Due(s.throttle, terminal, now) {
      TraceSnoc(s.emitted, s.throttle.pending.value);
    }
    hide Trace;
  }

  /** What an answer that is not stored has let through, if anything, ends with the last stored mark. */
  predicate Steady(s: Stream, r: Stream, ask: Ask)
    requires s.emitted <= r.emitted
  {
    ask.works || ask.terminal || s.throttle.interval <= 0 || r.emitted == s.emitted
    || (s.emitted != [] && MarkOf(r.emitted[|r.emitted| - 1]) == MarkOf(s.emitted[|s.emitted| - 1]))
  }

  lemma AnswerTracks(log: seq<Feedback>, s: Stream, seen: seq<Feedback>, ask: Ask)
    requires ask.upTo <= |log| && Tracks(s, seen)
    ensures Tracks(Answered(log, s, ask), seen + Fresh(s.cursor, log[..ask.upTo]))
    ensures Answered(log, s, ask).throttle.interval == s.throttle.interval
  {
    OffersTrack(s, seen, log[..ask.upTo], ask.now);
    OffersKeepInterval(s, log[..ask.upTo], ask.now);
    hide Tracks, OfferAll, Fresh;
    FlushTracks(OfferAll(s, log[..ask.upTo], ask.now), seen + Fresh(s.cursor, log[..ask.upTo]), ask.terminal, ask.now);
  }

  lemma {:induction false} OffersKeepInterval(s: Stream, incoming: seq<Feedback>, now: int)
    ensures OfferAll(s, incoming, now).throttle.interval == s.throttle.interval
    decreases |incoming|
  {
    if incoming != [] {
      OffersKeepInterval(Offer(s, incoming[0], now), incoming[1..], now);
    }
  }

  /** After an answer the throttle is in step with the record exactly if the answer was steady. */
  lemma InStepExactlyIfSteady(log: seq<Feedback>, s: Stream, seen: seq<Feedback>, ask: Ask)
    requires ask.upTo <= |log| && Tracks(s, seen)
    ensures InStep(Kept(s, Answered(log, s, ask), ask)) <==> Steady(s, Answered(log, s, ask), ask)
  {
    AnswerTracks(log, s, seen, ask);
    var r := Answered(log, s, ask);
    hide Answered, Follows, PendingFits, Trace, Fresh;
    if r.emitted == s.emitted {
    } else {
      assert |r.emitted| > |s.emitted|;
    }
  }

  /** The records of the stored answers that raised the cursor. */
  function SeenOver(log: seq<Feedback>, from: nat, s: Stream, asks: seq<Ask>): seq<Feedback>
    requires Asked(log, from, asks)
    decreases |asks|
  {
    if asks == [] then []
    else
      (if asks[0].works then Fresh(s.cursor, log[..asks[0].upTo]) else [])
      + SeenOver(log, asks[0].upTo, Kept(s, Answered(log, s, asks[0]), asks[0]), asks[1..])
  }

  predicate AllSteady(log: seq<Feedback>, from: nat, s: Stream, asks: seq<Ask>)
    requires Asked(log, from, asks)
    decreases |asks|
  {
    asks == [] ||
    (Steady(s, Answered(log, s, asks[0]), asks[0])
     && AllSteady(log, asks[0].upTo, Kept(s, Answered(log, s, asks[0]), asks[0]), asks[1..]))
  }

  lemma KeptTracks(log: seq<Feedback>, s: Stream, seen: seq<Feedback>, ask: Ask)
    requires ask.upTo <= |log| && Tracks(s, seen) && Steady(s, Answered(log, s, ask), ask)
    ensures Tracks(Kept(s, Answered(log, s, ask), ask),
                   seen + if ask.works then Fresh(s.cursor, log[..ask.upTo]) else [])
  {
    AnswerTracks(log, s, seen, ask);
    InStepExactlyIfSteady(log, s, seen, ask);
    assert seen + [] == seen;
    hide Answered, Trace, Fresh, InStep, Steady;
  }

  lemma {:induction false} SteadyRunTracks(
    log: seq<Feedback>, from: nat, s: Stream, seen: seq<Feedback>, asks: seq<Ask>)
    requires Asked(log, from, asks) && Tracks(s, seen) && AllSteady(log, from, s, asks)
    ensures Tracks(RunAsks(log, from, s, asks), seen + SeenOver(log, from, s, asks))
    decreases |asks|
  {
    hide Tracks, Kept, Answered, Steady, Fresh;
    if asks == [] {
      assert seen + [] == seen;
    } else {
      var ask := asks[0];
      var t := Kept(s, Answered(log, s, ask), ask);
      var more := if ask.works then Fresh(s.cursor, log[..ask.upTo]) else [];
      assert RunAsks(log, from, s, asks) == RunAsks(log, ask.upTo, t, asks[1..]);
      assert SeenOver(log, from, s, asks) == more + SeenOver(log, ask.upTo, t, asks[1..]);
      KeptTracks(log, s, seen, ask);
      hide RunAsks, SeenOver;
      SteadyRunTracks(log, ask.upTo, t, seen + more, asks[1..]);
      Regroup(seen, more, SeenOver(log, ask.upTo, t, asks[1..]));
    }
  }

  /** If every answer that is not stored lets nothing through, or ends with the last stored mark, the stored
      records show the same trace as all those of the stored answers. */
  lemma SteadyKeepsTrace(log: seq<Feedback>, interval: int, first: int, asks: seq<Ask>)
    requires Asked(log, 0, asks) && AllSteady(log, 0, Start(interval, first), asks)
    ensures Trace(RunAsks(log, 0, Start(interval, first), asks).emitted) ==
            Trace(SeenOver(log, 0, Start(interval, first), asks))
  {
    SteadyRunTracks(log, 0, Start(interval, first), [], asks);
    assert [] + SeenOver(log, 0, Start(interval, first), asks) == SeenOver(log, 0, Start(interval, first), asks);
  }
}
