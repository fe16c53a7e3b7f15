/**
 * A run's events: the full history persisted in batches (agent.service.ts,
 * agent.utility.ts) beside the bounded buffer the live view shows (langfuse.service.ts).
 */
module Events {
  import opened Common

  const BUFFER_EVENTS := 1000
  const BUFFER_RETENTION_MS := 3_600_000

  datatype Row<E> = Row(seqNo: nat, event: E)

  // ── The display buffer of one session ──────────────────────────────────────

  datatype Session<E> = Session(live: bool, buffer: Option<seq<E>>, retiredAt: Option<int>)

  function NoSession<E>(): Session<E> {
    Session(false, None, None)
  }

  function OrEmpty<E>(buffer: Option<seq<E>>): seq<E> {
    if buffer.Some? then buffer.value else []
  }

  /** The newest events, as many as the buffer holds. */
  function Newest<E>(events: seq<E>): seq<E> {
    if |events| <= BUFFER_EVENTS then events else events[|events| - BUFFER_EVENTS..]
  }

  /** shift when full, then push. */
  function Push<E>(buffer: seq<E>, e: E): seq<E> {
    (if |buffer| >= BUFFER_EVENTS then buffer[1..] else buffer) + [e]
  }

  function PushAll<E>(buffer: seq<E>, events: seq<E>): seq<E> {
    if |events| == 0 then buffer else Push(PushAll(buffer, events[..|events| - 1]), events[|events| - 1])
  }

  function Ingested<E>(s: Session<E>, events: seq<E>): Session<E> {
    Session(true, Some(PushAll(OrEmpty(s.buffer), events)), None)
  }

  function Observed<E>(s: Session<E>): Session<E> {
    if s.live then s else s.(live := true, buffer := Some([]))
  }

  function Completed<E>(s: Session<E>, now: int): Session<E> {
    s.(live := false, retiredAt := Some(now))
  }

  function Swept<E>(s: Session<E>, now: int): Session<E> {
    if s.retiredAt.Some? && s.retiredAt.value < now - BUFFER_RETENTION_MS then s.(buffer := None, retiredAt := None) else s
  }

  class LangfuseService<E> {
    var subjects: set<string>
    var buffers: map<string, seq<E>>
    var retiredAt: map<string, int>

    constructor ()
      ensures forall id :: SessionAt(id) == NoSession()
    {
      subjects, buffers, retiredAt := {}, map[], map[];
    }

    function SessionAt(id: string): Session<E>
      reads this
    {
      Session(id in subjects, if id in buffers then Some(buffers[id]) else None,
              if id in retiredAt then Some(retiredAt[id]) else None)
    }

    method Ingest(id: string, events: seq<E>)
      modifies this
      ensures SessionAt(id) == Ingested(old(SessionAt(id)), events)
      ensures forall other :: other != id ==> SessionAt(other) == old(SessionAt(other))
    {
      subjects := subjects + {id};
      if id !in buffers {
        buffers := buffers[id := []];
      }
      retiredAt := retiredAt - {id};
      ghost var start := buffers[id];
      for i := 0 to |events|
        invariant id in subjects && id !in retiredAt && id in buffers && buffers[id] == PushAll(start, events[..i])
        invariant forall other :: other != id ==> SessionAt(other) == old(SessionAt(other))
      {
        assert events[..i + 1][..i] == events[..i];
        if |buffers[id]| >= BUFFER_EVENTS {
          buffers := buffers[id := buffers[id][1..]];
        }
        buffers := buffers[id := buffers[id] + [events[i]]];
      }
      assert events[..|events|] == events;
    }

    method Observe(id: string)
      modifies this`subjects, this`buffers
      ensures SessionAt(id) == Observed(old(SessionAt(id)))
      ensures SessionAt(id).live && (if old(SessionAt(id)).live then SessionAt(id) == old(SessionAt(id)) else SessionAt(id).buffer == Some([]))
      ensures forall other :: other != id ==> SessionAt(other) == old(SessionAt(other))
    {
      if id !in subjects {
        subjects := subjects + {id};
        buffers := buffers[id := []];
      }
    }

    method Complete(id: string, now: int)
      modifies this`subjects, this`retiredAt
      ensures SessionAt(id) == Completed(old(SessionAt(id)), now) == old(SessionAt(id)).(live := false, retiredAt := Some(now))
      ensures forall other :: other != id ==> SessionAt(other) == old(SessionAt(other))
    {
      subjects := subjects - {id};
      retiredAt := retiredAt[id := now];
    }

    method SweepExpired(now: int)
      modifies this`buffers, this`retiredAt
      ensures forall id :: SessionAt(id) == Swept(old(SessionAt(id)), now)
      ensures forall id :: var s := old(SessionAt(id));
                var expired := s.retiredAt.Some? && now - s.retiredAt.value > 3_600_000;
                SessionAt(id) == if expired then s.(buffer := None, retiredAt := None) else s
    {
      var expired := set id | id in retiredAt && retiredAt[id] < now - BUFFER_RETENTION_MS;
      buffers := buffers - expired;
      retiredAt := retiredAt - expired;
    }
  }

  // ── The buffer is a window on the history ──────────────────────────────────

  lemma PushIsNewest<E>(history: seq<E>, e: E)
    ensures Push(Newest(history), e) == Newest(history + [e])
  {
  }

  lemma {:induction false} PushAllIsNewest<E>(history: seq<E>, events: seq<E>)
    ensures PushAll(Newest(history), events) == Newest(history + events)
  {
    if |events| == 0 {
      assert history + events == history;
    } else {
      PushAllIsNewest(history, events[..|events| - 1]);
      PushIsNewest(history + events[..|events| - 1], events[|events| - 1]);
      assert history + events[..|events| - 1] + [events[|events| - 1]] == history + events;
    }
  }

  // ── Persistence ────────────────────────────────────────────────────────────

  /** What startEventPersistence closes over, the write chain, and the table. */
  datatype Persister<E> = Persister(subscribed: bool, pending: seq<E>, next: nat, chain: seq<seq<Row<E>>>, table: seq<Row<E>>)

  function InsertRows<E>(events: seq<E>, start: nat): seq<Row<E>> {
    seq(|events|, i requires 0 <= i < |events| => Row(start + i, events[i]))
  }

  function Flushed<E>(p: Persister<E>): Persister<E> {
    if |p.pending| == 0 then p
    else p.(pending := [], next := p.next + |p.pending|, chain := p.chain + [InsertRows(p.pending, p.next)])
  }

  /** The oldest queued write lands, or fails and is only logged. */
  function Landed<E>(p: Persister<E>, ok: bool): Persister<E> {
    if |p.chain| == 0 then p
    else p.(chain := p.chain[1..], table := if ok then p.table + p.chain[0] else p.table)
  }

  class EventPersistence<E> {
    var subscribed: bool
    var pending: seq<E>
    var seqNo: nat
    var chain: seq<seq<Row<E>>>
    var table: seq<Row<E>>

    function State(): Persister<E>
      reads this
    {
      Persister(subscribed, pending, seqNo, chain, table)
    }

    constructor ()
      ensures State() == Persister(true, [], 0, [], [])
    {
      subscribed, pending, seqNo, chain, table := true, [], 0, [], [];
    }

    method Flush()
      modifies this`pending, this`seqNo, this`chain
      ensures State() == Flushed(old(State()))
    {
      if |pending| == 0 {
        return;
      }
      var batch := pending;
      pending := [];
      var rows: seq<Row<E>> := [];
      for i := 0 to |batch|
        invariant rows == InsertRows(batch[..i], seqNo)
      {
        rows := rows + [Row(seqNo + i, batch[i])];
      }
      assert batch[..|batch|] == batch;
      seqNo := seqNo + |batch|;
      chain := chain + [rows];
    }

    /** Unsubscribe, queue the final batch, wait for the whole chain; `fate` says which writes succeed. */
    method Stop(fate: seq<bool>)
      requires |fate| > |chain|
      modifies this
      ensures !subscribed && pending == [] && chain == []
      ensures State() == LandAll(Flushed(old(State()).(subscribed := false)), fate)
    {
      subscribed := false;
      Flush();
      ghost var queued := State();
      var i := 0;
      while |chain| > 0
        invariant i + |chain| <= |fate| && LandAll(State(), fate[i..]) == LandAll(queued, fate)
        invariant !subscribed && pending == []
        decreases |chain|
      {
        assert fate[i..][0] == fate[i] && fate[i..][1..] == fate[i + 1..];
        if fate[i] {
          table := table + chain[0];
        }
        chain := chain[1..];
        i := i + 1;
      }
    }
  }

  function LandAll<E>(p: Persister<E>, fate: seq<bool>): Persister<E>
    requires |fate| >= |p.chain|
    decreases |p.chain|
  {
    if |p.chain| == 0 then p else LandAll(Landed(p, fate[0]), fate[1..])
  }

  // ── A run, in any timing ───────────────────────────────────────────────────

  datatype Step<E> = Arrive(events: seq<E>) | Flush | Land(ok: bool) | Sweep(now: int) | Stop | Complete(now: int)

  /**
   * What really happened: every event ingested since the run was first observed, how
   * many of them while the persister listened, and the fate of each event written.
   */
  datatype World<E> = World(arrived: seq<E>, heard: nat, fate: seq<bool>, completed: bool)

  datatype Run<E> = Run(world: World<E>, session: Session<E>, persister: Persister<E>)

  function Begun<E>(): Run<E> {
    Run(World([], 0, [], false), Observed(NoSession()), Persister(true, [], 0, [], []))
  }

  function Repeat(b: bool, n: nat): seq<bool> {
    seq(n, i => b)
  }

  function Next<E>(r: Run<E>, step: Step<E>): Run<E> {
    match step
    case Arrive(events) =>
      var hears := r.persister.subscribed && !r.world.completed;
      var arrived := r.world.arrived + events;
      Run(r.world.(arrived := arrived, heard := if hears then |arrived| else r.world.heard),
          Ingested(r.session, events),
          if hears then r.persister.(pending := r.persister.pending + events) else r.persister)
    case Flush => r.(persister := Flushed(r.persister))
    case Land(ok) =>
      Run(if |r.persister.chain| == 0 then r.world
          else r.world.(fate := r.world.fate + Repeat(ok, |r.persister.chain[0]|)),
          r.session, Landed(r.persister, ok))
    case Sweep(now) => r.(session := Swept(r.session, now))
    case Stop => r.(persister := Flushed(r.persister.(subscribed := false)))
    case Complete(now) => r.(world := r.world.(completed := true), session := Completed(r.session, now))
  }

  function After<E>(steps: seq<Step<E>>): Run<E> {
    if |steps| == 0 then Begun() else Next(After(steps[..|steps| - 1]), steps[|steps| - 1])
  }

  /** The rows of the events whose write succeeded, each under its place in the arrival order. */
  function Survivors<E>(events: seq<E>, fate: seq<bool>): seq<Row<E>>
    requires |fate| <= |events|
  {
    if |fate| == 0 then []
    else
      var n := |fate| - 1;
      Survivors(events, fate[..n]) + if fate[n] then [Row(n, events[n])] else []
  }

  function Queued<E>(chain: seq<seq<Row<E>>>): seq<Row<E>> {
    if |chain| == 0 then [] else chain[0] + Queued(chain[1..])
  }

  lemma {:induction false} QueuedAppend<E>(chain: seq<seq<Row<E>>>, rows: seq<Row<E>>)
    ensures Queued(chain + [rows]) == Queued(chain) + rows
  {
    if |chain| == 0 {
      assert chain + [rows] == [rows];
      assert rows + Queued([rows][1..]) == rows;
    } else {
      assert (chain + [rows])[1..] == chain[1..] + [rows];
      QueuedAppend(chain[1..], rows);
    }
  }

  predicate PersistenceOk<E(==)>(w: World<E>, p: Persister<E>) {
    |w.fate| <= p.next <= w.heard <= |w.arrived|
    && (p.subscribed && !w.completed ==> w.heard == |w.arrived|)
    && p.pending == w.arrived[p.next..w.heard]
    && Queued(p.chain) == InsertRows(w.arrived[|w.fate|..p.next], |w.fate|)
    && p.table == Survivors(w.arrived, w.fate)
  }

  lemma {:induction false} SurvivorsOfPrefix<E>(events: seq<E>, more: seq<E>, fate: seq<bool>)
    requires |fate| <= |events|
    ensures Survivors(events + more, fate) == Survivors(events, fate)
  {
    if |fate| > 0 {
      SurvivorsOfPrefix(events, more, fate[..|fate| - 1]);
    }
  }

  lemma {:induction false} SurvivorsAppend<E>(events: seq<E>, fate: seq<bool>, ok: bool, n: nat)
    requires |fate| + n <= |events|
    ensures Survivors(events, fate + Repeat(ok, n))
            == Survivors(events, fate) + RowsIf(events, |fate|, n, ok)
  {
    if n == 0 {
      assert fate + Repeat(ok, n) == fate;
    } else {
      SurvivorsAppend(events, fate, ok, n - 1);
      RepeatNext(fate, ok, n);
      OneMoreSurvives(events, fate, ok, n, fate + Repeat(ok, n - 1), RowsIf(events, |fate|, n, ok));
    }
  }

  /** The rows of the next n events, or none of them. */
  function RowsIf<E>(events: seq<E>, start: nat, n: nat, ok: bool): seq<Row<E>>
    requires start + n <= |events|
  {
    if ok then InsertRows(events[start..start + n], start) else []
  }

  lemma OneMoreSurvives<E>(events: seq<E>, fate: seq<bool>, ok: bool, n: nat, longer: seq<bool>, rows: seq<Row<E>>)
    requires 0 < n && |fate| + n <= |events| && |longer| == |fate| + n - 1 && rows == RowsIf(events, |fate|, n, ok)
    requires Survivors(events, longer) == Survivors(events, fate) + RowsIf(events, |fate|, n - 1, ok)
    ensures Survivors(events, longer + [ok]) == Survivors(events, fate) + rows
  {
    var at := |longer|;
    SurvivorsSnoc(events, longer, ok, at);
    RowsIfNext(events, |fate|, n, ok, at);
    Regroup(Survivors(events, fate), RowsIf(events, |fate|, n - 1, ok), RowIf(events, at, ok), Survivors(events, longer), rows);
  }

  function RowIf<E>(events: seq<E>, i: nat, ok: bool): seq<Row<E>>
    requires i < |events|
  {
    if ok then [Row(i, events[i])] else []
  }

  lemma RowsIfNext<E>(events: seq<E>, start: nat, n: nat, ok: bool, at: nat)
    requires n > 0 && start + n <= |events| && at == start + n - 1
    ensures RowsIf(events, start, n, ok) == RowsIf(events, start, n - 1, ok) + RowIf(events, at, ok)
  {
    InsertNext(events, start, n);
  }

  lemma Regroup<A>(a: seq<A>, b: seq<A>, c: seq<A>, ab: seq<A>, bc: seq<A>)
    requires ab == a + b && bc == b + c
    ensures ab + c == a + bc
  {
  }

  lemma RepeatNext(fate: seq<bool>, ok: bool, n: nat)
    requires n > 0
    ensures fate + Repeat(ok, n) == (fate + Repeat(ok, n - 1)) + [ok]
  {
  }

  lemma SurvivorsSnoc<E>(events: seq<E>, fate: seq<bool>, ok: bool, at: nat)
    requires |fate| == at < |events|
    ensures Survivors(events, fate + [ok]) == Survivors(events, fate) + RowIf(events, at, ok)
  {
    assert (fate + [ok])[..|fate|] == fate;
  }

  lemma InsertNext<E>(events: seq<E>, start: nat, n: nat)
    requires n > 0 && start + n <= |events|
    ensures InsertRows(events[start..start + n], start)
            == InsertRows(events[start..start + n - 1], start) + [Row(start + n - 1, events[start + n - 1])]
  {
  }

  lemma FlushKeeps<E>(w: World<E>, p: Persister<E>)
    requires PersistenceOk(w, p)
    ensures PersistenceOk(w, Flushed(p)) && Flushed(p).next == w.heard
  {
    if |p.pending| > 0 {
      QueuedAppend(p.chain, InsertRows(p.pending, p.next));
      assert w.arrived[|w.fate|..w.heard] == w.arrived[|w.fate|..p.next] + p.pending;
    }
  }

  lemma LandKeeps<E>(w: World<E>, p: Persister<E>, ok: bool)
    requires PersistenceOk(w, p) && |p.chain| > 0
    ensures PersistenceOk(w.(fate := w.fate + Repeat(ok, |p.chain[0]|)), Landed(p, ok))
  {
    var batch, rest := p.chain[0], p.chain[1..];
    assert p.chain == [batch] + rest;
    BatchSplits(w.arrived, |w.fate|, p.next, batch, rest);
    SurvivorsAppend(w.arrived, w.fate, ok, |batch|);
    LandedKeeps(w, p, ok, batch, rest, w.fate + Repeat(ok, |batch|));
  }

  lemma LandedKeeps<E>(w: World<E>, p: Persister<E>, ok: bool, batch: seq<Row<E>>, rest: seq<seq<Row<E>>>, fate: seq<bool>)
    requires PersistenceOk(w, p) && |p.chain| > 0 && p.chain[0] == batch && p.chain[1..] == rest
    requires |fate| == |w.fate| + |batch| <= p.next
    requires Survivors(w.arrived, fate) == Survivors(w.arrived, w.fate) + if ok then batch else []
    requires Queued(rest) == InsertRows(w.arrived[|fate|..p.next], |fate|)
    ensures PersistenceOk(w.(fate := fate), Landed(p, ok))
  {
  }

  /** The first batch of the queue is the next events', the rest of it those of the events behind. */
  lemma BatchSplits<E>(events: seq<E>, done: nat, next: nat, batch: seq<Row<E>>, rest: seq<seq<Row<E>>>)
    requires done <= next <= |events| && Queued([batch] + rest) == InsertRows(events[done..next], done)
    ensures done + |batch| <= next && batch == InsertRows(events[done..done + |batch|], done)
    ensures Queued(rest) == InsertRows(events[done + |batch|..next], done + |batch|)
  {
    assert ([batch] + rest)[1..] == rest;
    InsertSplits(events[done..next], done, batch, Queued(rest));
    assert events[done..next][..|batch|] == events[done..done + |batch|];
    assert events[done..next][|batch|..] == events[done + |batch|..next];
  }

  /** The rows of a batch and of what is queued behind it. */
  lemma InsertSplits<E>(events: seq<E>, start: nat, first: seq<Row<E>>, rest: seq<Row<E>>)
    requires InsertRows(events, start) == first + rest
    ensures |first| <= |events|
    ensures first == InsertRows(events[..|first|], start) && rest == InsertRows(events[|first|..], start + |first|)
  {
    assert |InsertRows(events, start)| == |events|;
    assert first == InsertRows(events, start)[..|first|] && rest == InsertRows(events, start)[|first|..];
  }

  lemma {:induction false} PersistenceKept<E>(steps: seq<Step<E>>)
    ensures PersistenceOk(After(steps).world, After(steps).persister)
  {
    if |steps| > 0 {
      var r, step := After(steps[..|steps| - 1]), steps[|steps| - 1];
      PersistenceKept(steps[..|steps| - 1]);
      match step
      case Arrive(events) => ArriveKeeps(r, events);
      case Flush => FlushKeeps(r.world, r.persister);
      case Stop => FlushKeeps(r.world, r.persister.(subscribed := false));
      case Land(ok) => if |r.persister.chain| > 0 { LandKeeps(r.world, r.persister, ok); }
      case Sweep(_) =>
      case Complete(_) =>
    }
  }

  lemma ArriveKeeps<E>(r: Run<E>, events: seq<E>)
    requires PersistenceOk(r.world, r.persister)
    ensures PersistenceOk(Next(r, Arrive(events)).world, Next(r, Arrive(events)).persister)
  {
    var s := Next(r, Arrive(events));
    SurvivorsOfPrefix(r.world.arrived, events, r.world.fate);
    assert s.world.arrived[|r.world.fate|..r.persister.next] == r.world.arrived[|r.world.fate|..r.persister.next];
  }

  /** The buffer shows the newest events since it was made; before completion nothing can take it away. */
  predicate BufferOk<E(==)>(r: Run<E>) {
    ShowsNewest(r.session.buffer, r.world.arrived) && r.session.live && r.session.retiredAt.None?
  }

  /** The newest thousand of all these events, or all of them while they are fewer. */
  predicate ShowsNewest<E(==)>(buffer: Option<seq<E>>, events: seq<E>) {
    buffer.Some? && |buffer.value| <= |events| && (|buffer.value| == 1000 || |buffer.value| == |events| < 1000)
    && buffer.value == events[|events| - |buffer.value|..]
  }

  lemma NewestShows<E>(buffer: Option<seq<E>>, events: seq<E>)
    ensures ShowsNewest(buffer, events) <==> buffer == Some(Newest(events))
  {
  }

  predicate NotCompleted<E>(steps: seq<Step<E>>) {
    forall i :: 0 <= i < |steps| ==> !steps[i].Complete?
  }

  lemma {:induction false} BufferIsAWindow<E>(steps: seq<Step<E>>)
    requires NotCompleted(steps)
    ensures BufferOk(After(steps)) && !After(steps).world.completed
  {
    if |steps| > 0 {
      var r, last := After(steps[..|steps| - 1]), steps[|steps| - 1];
      BufferIsAWindow(steps[..|steps| - 1]);
      NewestShows(r.session.buffer, r.world.arrived);
      if last.Arrive? {
        PushAllIsNewest(r.world.arrived, last.events);
        NewestShows(Next(r, last).session.buffer, r.world.arrived + last.events);
      }
    }
  }

  // ── Results ────────────────────────────────────────────────────────────────

  /**
   * In any timing, the table holds exactly the events whose write succeeded, in
   * arrival order, each under its place in that order: a failed batch leaves a gap
   * and moves nothing.
   */
  lemma TableIsTheHistory<E>(steps: seq<Step<E>>)
    ensures var r := After(steps);
            |r.world.fate| <= |r.world.arrived| && r.persister.table == Survivors(r.world.arrived, r.world.fate)
  {
    PersistenceKept(steps);
  }

  lemma {:induction false} AllSurvive<E>(events: seq<E>, fate: seq<bool>)
    requires |fate| <= |events| && forall i :: 0 <= i < |fate| ==> fate[i]
    ensures Survivors(events, fate) == InsertRows(events[..|fate|], 0)
  {
    if |fate| > 0 {
      AllSurvive(events, fate[..|fate| - 1]);
    }
  }

  /** A row of an event whose write succeeded, under that event's place. */
  ghost predicate InPlace<E>(events: seq<E>, fate: seq<bool>, row: Row<E>)
    requires |fate| <= |events|
  {
    row.seqNo < |fate| && fate[row.seqNo] && row.event == events[row.seqNo]
  }

  lemma {:induction false} SurvivorsInPlace<E>(events: seq<E>, fate: seq<bool>)
    requires |fate| <= |events|
    ensures forall row :: row in Survivors(events, fate) ==> InPlace(events, fate, row)
  {
    if |fate| > 0 {
      var n := |fate| - 1;
      SurvivorsInPlace(events, fate[..n]);
      forall row | row in Survivors(events, fate) ensures InPlace(events, fate, row) {
        if row in Survivors(events, fate[..n]) {
          assert InPlace(events, fate[..n], row);
        }
      }
    }
  }

  /** Rows stand in the order of their numbers. */
  ghost predicate InOrder<E>(rows: seq<Row<E>>) {
    forall i, j :: 0 <= i < j < |rows| ==> rows[i].seqNo < rows[j].seqNo
  }

  lemma OrderedAppend<E>(rows: seq<Row<E>>, row: Row<E>)
    requires InOrder(rows) && forall r :: r in rows ==> r.seqNo < row.seqNo
    ensures InOrder(rows + [row])
  {
  }

  lemma {:induction false} SurvivorsOrdered<E>(events: seq<E>, fate: seq<bool>)
    requires |fate| <= |events|
    ensures InOrder(Survivors(events, fate))
  {
    if |fate| > 0 {
      var n := |fate| - 1;
      SurvivorsOrdered(events, fate[..n]);
      SurvivorsInPlace(events, fate[..n]);
      var before := Survivors(events, fate[..n]);
      if fate[n] {
        forall r | r in before ensures r.seqNo < n {
          assert InPlace(events, fate[..n], r);
        }
        OrderedAppend(before, Row(n, events[n]));
      }
    }
  }

  lemma {:induction false} EverySurvivorIsThere<E>(events: seq<E>, fate: seq<bool>, k: nat)
    requires k < |fate| <= |events| && fate[k]
    ensures Row(k, events[k]) in Survivors(events, fate)
  {
    if k < |fate| - 1 {
      EverySurvivorIsThere(events, fate[..|fate| - 1], k);
    }
  }

  /** Survivors keep their order and their numbers whatever fails. */
  lemma SurvivorsInOrder<E>(events: seq<E>, fate: seq<bool>)
    requires |fate| <= |events|
    ensures InOrder(Survivors(events, fate))
    ensures forall row :: row in Survivors(events, fate) ==> InPlace(events, fate, row)
    ensures forall k :: 0 <= k < |fate| && fate[k] ==> Row(k, events[k]) in Survivors(events, fate)
  {
    SurvivorsOrdered(events, fate);
    SurvivorsInPlace(events, fate);
    forall k | 0 <= k < |fate| && fate[k] ensures Row(k, events[k]) in Survivors(events, fate) {
      EverySurvivorIsThere(events, fate, k);
    }
  }

  /**
   * Once stopped and drained with every write successful, the table is everything
   * heard, numbered 0..n-1, however the flushes fell; and while the run is not yet
   * completed the buffer shows the newest of everything that arrived.
   */
  lemma StoppedRunsAreComplete<E>(steps: seq<Step<E>>)
    requires NotCompleted(steps) && (forall i :: 0 <= i < |After(steps).world.fate| ==> After(steps).world.fate[i])
    requires var p := After(steps).persister; p.chain == [] && p.pending == []
    ensures var r := After(steps);
            r.world.heard <= |r.world.arrived|
            && r.persister.table == InsertRows(r.world.arrived[..r.world.heard], 0)
            && ShowsNewest(r.session.buffer, r.world.arrived)
            && (r.persister.subscribed ==> r.world.heard == |r.world.arrived|)
  {
    PersistenceKept(steps);
    BufferIsAWindow(steps);
    AllSurvive(After(steps).world.arrived, After(steps).world.fate);
  }
}
