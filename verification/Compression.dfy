/**
 * Context compression seen in a stream of events (Compression.tsx): a sharp drop of
 * prompt tokens, looked for in each trace on its own.
 */
module Compression {
  import opened Common

  /** What a usage report says; a field that is not a number counts as absent. */
  datatype Usage = Usage(input: Option<int>, cacheRead: Option<int>, cacheCreation: Option<int>)

  /** An event of the stream: `usage` is None unless it is a generation whose usage parses. */
  datatype Event = Event(trace: string, usage: Option<Usage>)

  datatype Drop = Drop(before: int, after: int)

  function OrZero(n: Option<int>): int {
    if n.Some? then n.value else 0
  }

  /** The whole prompt: cached prefixes are reported beside the input, not in it. */
  function InputTokens(e: Event): Option<int> {
    if e.usage.None? || e.usage.value.input.None? then None
    else Some(e.usage.value.input.value + OrZero(e.usage.value.cacheRead) + OrZero(e.usage.value.cacheCreation))
  }

  /** cur < 0.8 prev, in whole numbers, and more than 2000 tokens gone. */
  predicate IsDrop(prev: int, cur: int) {
    5 * cur < 4 * prev && prev - cur > 2000
  }

  /** The last prompt size of a trace among these events. */
  function LastOf(events: seq<Event>, trace: string): Option<int> {
    if |events| == 0 then None
    else
      var last := events[|events| - 1];
      if last.trace == trace && InputTokens(last).Some? then InputTokens(last) else LastOf(events[..|events| - 1], trace)
  }

  /** The drop, if any, reported at index i. */
  function DropAt(events: seq<Event>, i: nat): Option<Drop>
    requires i < |events|
  {
    var cur, prev := InputTokens(events[i]), LastOf(events[..i], events[i].trace);
    if cur.Some? && prev.Some? && IsDrop(prev.value, cur.value) then Some(Drop(prev.value, cur.value)) else None
  }

  // ── What is reported, told from the reports of usage ───────────────────────

  predicate HasInput(e: Event) {
    e.usage.Some? && e.usage.value.input.Some?
  }

  /** The prompt's size: input, tokens read from the cache and tokens written to it together. */
  predicate Sized(e: Event, n: int) {
    HasInput(e)
    && n == e.usage.value.input.value + (match e.usage.value.cacheRead case Some(r) => r case None => 0)
            + (match e.usage.value.cacheCreation case Some(w) => w case None => 0)
  }

  /** Event k is the latest of the trace before i to report an input. */
  predicate IsLatest(events: seq<Event>, trace: string, k: nat, i: nat) {
    k < i <= |events| && events[k].trace == trace && HasInput(events[k])
    && forall m :: k < m < i && events[m].trace == trace ==> !HasInput(events[m])
  }

  /** The sizes of event i and of the latest before it in its trace, if the one is a fifth and 2000 tokens below the other. */
  ghost predicate Drops(events: seq<Event>, i: nat, before: int, after: int) {
    i < |events| && Sized(events[i], after) && 5 * after < 4 * before && before - after > 2000
    && exists k: nat :: IsLatest(events, events[i].trace, k, i) && Sized(events[k], before)
  }

  lemma {:induction false} LastOfIs(events: seq<Event>, trace: string, n: int)
    ensures LastOf(events, trace) == Some(n) <==> exists k: nat :: IsLatest(events, trace, k, |events|) && Sized(events[k], n)
  {
    if |events| > 0 {
      var before, last := events[..|events| - 1], events[|events| - 1];
      if last.trace == trace && HasInput(last) {
        assert IsLatest(events, trace, |events| - 1, |events|);
      } else {
        LastOfIs(before, trace, n);
        forall k: nat ensures IsLatest(events, trace, k, |events|) <==> IsLatest(before, trace, k, |before|) {
          if IsLatest(before, trace, k, |before|) {
            forall m | k < m < |events| && events[m].trace == trace ensures !HasInput(events[m]) {
              if m < |before| {
                assert events[m] == before[m];
              }
            }
          }
          if IsLatest(events, trace, k, |events|) {
            assert k != |events| - 1;
          }
        }
      }
    }
  }

  lemma DropsExactly(events: seq<Event>, i: nat, d: Drop)
    requires i < |events|
    ensures DropAt(events, i) == Some(d) <==> Drops(events, i, d.before, d.after)
  {
    var trace := events[i].trace;
    LastOfIs(events[..i], trace, d.before);
    forall k: nat ensures IsLatest(events[..i], trace, k, i) <==> IsLatest(events, trace, k, i) {
    }
  }

  /** Tokens may move between input and cache: as long as the sums are the same, so is every report. */
  lemma OnlySumsCount(events: seq<Event>, others: seq<Event>, i: nat)
    requires i < |events| == |others|
    requires forall k :: 0 <= k < |events| ==> SameSum(events[k], others[k])
    ensures DropAt(events, i) == DropAt(others, i)
  {
    SameLast(events[..i], others[..i], events[i].trace);
    assert SameSum(events[i], others[i]);
  }

  predicate SameSum(e: Event, f: Event) {
    e.trace == f.trace && HasInput(e) == HasInput(f)
    && (HasInput(e) ==> e.usage.value.input.value + OrZero(e.usage.value.cacheRead) + OrZero(e.usage.value.cacheCreation)
                        == f.usage.value.input.value + OrZero(f.usage.value.cacheRead) + OrZero(f.usage.value.cacheCreation))
  }

  lemma {:induction false} SameLast(events: seq<Event>, others: seq<Event>, trace: string)
    requires |events| == |others| && forall k :: 0 <= k < |events| ==> SameSum(events[k], others[k])
    ensures LastOf(events, trace) == LastOf(others, trace)
  {
    if |events| > 0 {
      SameLast(events[..|events| - 1], others[..|others| - 1], trace);
      assert SameSum(events[|events| - 1], others[|others| - 1]);
    }
  }

  /** compressionDrops: one pass with the last size of every trace. */
  method CompressionDrops(events: seq<Event>) returns (drops: map<nat, Drop>)
    ensures forall i: nat :: i in drops <==> i < |events| && DropAt(events, i).Some?
    ensures forall i: nat :: i < |events| && i in drops ==> DropAt(events, i) == Some(drops[i])
    ensures forall i: nat, d: Drop :: i in drops && drops[i] == d <==> Drops(events, i, d.before, d.after)
  {
    drops := map[];
    var lastByTrace: map<string, int> := map[];
    for i := 0 to |events|
      invariant forall t :: t in lastByTrace <==> LastOf(events[..i], t).Some?
      invariant forall t :: t in lastByTrace ==> LastOf(events[..i], t) == Some(lastByTrace[t])
      invariant forall k: nat :: k in drops <==> k < i && DropAt(events, k).Some?
      invariant forall k: nat :: k < i && k in drops ==> DropAt(events, k) == Some(drops[k])
    {
      assert events[..i + 1][..i] == events[..i];
      var cur := InputTokens(events[i]);
      if cur.None? {
        continue;
      }
      var trace := events[i].trace;
      if trace in lastByTrace {
        var prev := lastByTrace[trace];
        if IsDrop(prev, cur.value) {
          drops := drops[i := Drop(prev, cur.value)];
        }
      }
      lastByTrace := lastByTrace[trace := cur.value];
    }
    forall i: nat, d: Drop ensures i in drops && drops[i] == d <==> Drops(events, i, d.before, d.after) {
      if i < |events| {
        DropsExactly(events, i, d);
      }
    }
  }

  // ── One trace on its own ───────────────────────────────────────────────────

  /** The events of one trace, in order. */
  function Only(events: seq<Event>, trace: string): seq<Event> {
    if |events| == 0 then []
    else
      var last := events[|events| - 1];
      Only(events[..|events| - 1], trace) + if last.trace == trace then [last] else []
  }

  /** Where event i of the stream stands among those of its trace. */
  function Place(events: seq<Event>, i: nat): nat
    requires i < |events|
  {
    |Only(events[..i], events[i].trace)|
  }

  lemma {:induction false} LastOfOwnTrace(events: seq<Event>, trace: string)
    ensures LastOf(Only(events, trace), trace) == LastOf(events, trace)
  {
    if |events| > 0 {
      var before, last := events[..|events| - 1], events[|events| - 1];
      LastOfOwnTrace(before, trace);
      if last.trace == trace {
        assert Only(events, trace)[..|Only(before, trace)|] == Only(before, trace);
      } else {
        assert Only(events, trace) == Only(before, trace);
      }
    }
  }

  lemma {:induction false} OnlyGrows(events: seq<Event>, i: nat, trace: string)
    requires i <= |events|
    ensures |Only(events[..i], trace)| <= |Only(events, trace)|
    ensures Only(events, trace)[..|Only(events[..i], trace)|] == Only(events[..i], trace)
    decreases |events|
  {
    if i == |events| {
      assert events[..i] == events;
    } else {
      assert events[..|events| - 1][..i] == events[..i];
      OnlyGrows(events[..|events| - 1], i, trace);
    }
  }

  lemma PlaceIsThere(events: seq<Event>, i: nat)
    requires i < |events|
    ensures var own := Only(events, events[i].trace);
            Place(events, i) < |own| && own[Place(events, i)] == events[i]
            && own[..Place(events, i)] == Only(events[..i], events[i].trace)
  {
    var trace := events[i].trace;
    assert events[..i + 1][..i] == events[..i];
    OnlyGrows(events, i + 1, trace);
    OnlyGrows(events, i, trace);
    assert Only(events[..i + 1], trace) == Only(events[..i], trace) + [events[i]];
  }

  /** Every event of the trace's own sequence comes from one place of the stream, in order. */
  lemma {:induction false} EveryPlaceIsTaken(events: seq<Event>, trace: string, p: nat) returns (i: nat)
    requires p < |Only(events, trace)|
    ensures i < |events| && events[i].trace == trace && Place(events, i) == p
  {
    var before, last := events[..|events| - 1], events[|events| - 1];
    if p < |Only(before, trace)| {
      i := EveryPlaceIsTaken(before, trace, p);
      assert events[..i] == before[..i];
    } else {
      i := |events| - 1;
    }
  }

  lemma PlacesKeepOrder(events: seq<Event>, i: nat, j: nat)
    requires i < j < |events| && events[i].trace == events[j].trace
    ensures Place(events, i) < Place(events, j)
  {
    var trace := events[i].trace;
    assert events[..j][..i + 1] == events[..i + 1];
    assert events[..i + 1][..i] == events[..i];
    OnlyGrows(events[..j], i + 1, trace);
    assert Only(events[..i + 1], trace) == Only(events[..i], trace) + [events[i]];
  }

  /**
   * Traces do not mix: however the stream interleaves them, what is reported at an
   * event is what its own trace, alone, reports at that event's place.
   */
  lemma TracesDoNotMix(events: seq<Event>, i: nat)
    requires i < |events|
    ensures var own := Only(events, events[i].trace);
            Place(events, i) < |own| && DropAt(events, i) == DropAt(own, Place(events, i))
  {
    PlaceIsThere(events, i);
    LastOfOwnTrace(events[..i], events[i].trace);
  }
}
