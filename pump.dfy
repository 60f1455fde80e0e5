/** The download polling loop of the relay server (index.js:179-215), one
    iteration at a time. A download keeps a cursor `idx` into the entry's
    chunk list and a counter `sleepCt`; both are local to the request, so
    several downloads of one file read independently. The only points where
    other requests and timers run are the `await`s, which come at the end of
    an iteration: `Drive` interleaves cache operations between steps there. */
module Pump {
  import opened Store

  const TIME_SLEEP_MS: int := 50
  /** 1000 / 50 * 10 = 200 polls, about ten seconds of sleeping. */
  const MAX_SLEEP_COUNT: int := 1000 / TIME_SLEEP_MS * 10

  /** Polling: inside the `while`; Ended: `res.end()` was called; Failed: the
      "max sleep count reached" error was thrown and answered with 400. */
  datatype Status = Polling | Ended | Failed

  /** A download in progress: its cursor, its sleep counter, the bytes it has
      written to the response so far, and whether it has finished. */
  datatype Pump = Pump(idx: nat, sleepCt: nat, written: seq<byte>, status: Status)

  /** `let idx = 0; let sleepCt = 0` */
  const Fresh: Pump := Pump(0, 0, [], Polling)

  /** A polling download has not yet passed the timeout check, and a failed
      one failed at it. */
  predicate Wf(p: Pump) {
    && (p.status == Polling ==> p.sleepCt <= MAX_SLEEP_COUNT + 1)
    && (p.status == Failed ==> p.sleepCt == MAX_SLEEP_COUNT + 1)
  }

  /** One pass through the loop: the `while (!isDone)` test, the timeout test,
      the wait for an entry, the wait for new chunks, or one drain; when the
      entry is done, the final drain and `res.end()` after the loop. */
  function Step(c: Cache, f: string, p: Pump): (q: Pump)
    requires p.status == Polling
    ensures q.status == Ended <==> IsDone(c, f)
    ensures q.status == Failed <==> !IsDone(c, f) && p.sleepCt > MAX_SLEEP_COUNT
    ensures q.status == Polling ==> q.sleepCt == p.sleepCt + 1
    ensures q.status != Polling ==> q.sleepCt == p.sleepCt
    ensures q.idx == p.idx + (if q.status == Polling then |Slice(ChunksOf(c, f), p.idx)| else 0)
    ensures q.written == p.written + (if q.status == Failed then [] else Flatten(Slice(ChunksOf(c, f), p.idx)))
  {
    if IsDone(c, f) then
      p.(written := p.written + Flatten(Slice(c[f].chunks, p.idx)), status := Ended)
    else if p.sleepCt > MAX_SLEEP_COUNT then
      p.(status := Failed)
    else if !IsCached(c, f) then
      p.(sleepCt := p.sleepCt + 1)
    else
      var unread := Slice(c[f].chunks, p.idx);
      if |unread| == 0 then p.(sleepCt := p.sleepCt + 1)
      else Pump(p.idx + |unread|, p.sleepCt + 1, p.written + Flatten(unread), Polling)
  }

  /** A step never moves the cursor back and keeps a polling download well-formed. */
  lemma StepMonotone(c: Cache, f: string, p: Pump)
    requires p.status == Polling && Wf(p)
    ensures Step(c, f, p).idx >= p.idx && Wf(Step(c, f, p))
    ensures p.written <= Step(c, f, p).written
  {
  }

  /** A download against a done entry it has fully read ends without writing. */
  lemma DrainedDoneEndsSilently(c: Cache, f: string, p: Pump)
    requires p.status == Polling && IsDone(c, f) && p.idx >= |c[f].chunks|
    ensures Step(c, f, p).status == Ended && Step(c, f, p).written == p.written
  {
  }

  /** What a download has written is exactly the chunks before its cursor. */
  ghost predicate Delivered(c: Cache, f: string, p: Pump) {
    p.idx <= |ChunksOf(c, f)| && p.written == Flatten(ChunksOf(c, f)[..p.idx])
  }

  /** Each step keeps `Delivered`; a drain moves the cursor to the end of the
      list, and an ended download has written every chunk of the entry. */
  lemma StepDelivers(c: Cache, f: string, p: Pump)
    requires p.status == Polling && Delivered(c, f, p)
    ensures Step(c, f, p).status == Polling ==> Delivered(c, f, Step(c, f, p))
    ensures Step(c, f, p).status == Ended ==> Step(c, f, p).written == Flatten(c[f].chunks)
  {
    var s := ChunksOf(c, f);
    FlattenSplit(s, p.idx);
    assert s[..|s|] == s;
  }

  /** Another handler's operation on a different name leaves this entry alone. */
  lemma OtherNameUntouched(c: Cache, op: Op, f: string)
    requires op.name != f
    ensures ChunksOf(Apply(c, op), f) == ChunksOf(c, f)
    ensures IsDone(Apply(c, op), f) == IsDone(c, f)
  {
  }

  predicate Disrupts(e: Event, f: string) {
    e.Do? && (e.op.ResetOp? || e.op.ClearOp?) && e.op.name == f
  }

  predicate AppendsTo(e: Event, f: string) {
    e.Do? && e.op.AppendOp? && e.op.name == f
  }

  /** Between two steps: `Tick` lets the download run one iteration, `Do` lets
      another request handler or a timer perform one cache operation. */
  datatype Event = Tick | Do(op: Op)

  /** Every reset or eviction of `f` comes while `f` holds no chunks and before
      any chunk is appended to it: nothing a download may have read is taken back. */
  ghost predicate Calm(c: Cache, f: string, events: seq<Event>) {
    forall j :: 0 <= j < |events| && Disrupts(events[j], f) ==>
      ChunksOf(c, f) == [] && forall i :: 0 <= i < j ==> !AppendsTo(events[i], f)
  }

  /** An operation admitted by `Calm` keeps what a download has written in step with the entry. */
  lemma ApplyDelivers(c: Cache, f: string, p: Pump, op: Op)
    requires Delivered(c, f, p)
    requires (op.ResetOp? || op.ClearOp?) && op.name == f ==> ChunksOf(c, f) == []
    ensures Delivered(Apply(c, op), f, p)
  {
    if op.name != f {
      OtherNameUntouched(c, op, f);
    } else if op.AppendOp? {
      AppendKeepsPrefix(c, f, op.chunk, p.idx);
    }
  }

  function Fuel(p: Pump): nat {
    if p.status == Polling && p.sleepCt <= MAX_SLEEP_COUNT + 1 then MAX_SLEEP_COUNT + 2 - p.sleepCt else 0
  }

  /** Runs a download from `p` with `events` interleaved at its `await`s; once
      the events are used up it keeps polling alone. Returns the cache and the
      download when the download leaves the loop, which it always does. */
  function Drive(c: Cache, f: string, p: Pump, events: seq<Event>): (r: (Cache, Pump))
    requires Wf(p)
    ensures r.1.status != Polling
    ensures r.1.status == Failed ==> r.1.sleepCt == MAX_SLEEP_COUNT + 1
    ensures p.written <= r.1.written
    decreases |events|, Fuel(p)
  {
    if p.status != Polling then (c, p)
    else if events == [] then Drive(c, f, Step(c, f, p), [])
    else match events[0]
      case Tick => Drive(c, f, Step(c, f, p), events[1..])
      case Do(op) => Drive(Apply(c, op), f, p, events[1..])
  }

  /** The events after the first still satisfy `Calm` once the first has happened. */
  lemma CalmAfter(c: Cache, f: string, events: seq<Event>)
    requires |events| > 0 && Calm(c, f, events)
    ensures Calm(if events[0].Do? then Apply(c, events[0].op) else c, f, events[1..])
  {
  }

  /** No loss, no duplication, no reordering: a download that ends has written
      the concatenation of every chunk of the entry, and only once it is done. */
  lemma {:induction false} DriveDelivers(c: Cache, f: string, p: Pump, events: seq<Event>)
    requires Wf(p) && p.status == Polling && Delivered(c, f, p) && Calm(c, f, events)
    ensures Drive(c, f, p, events).1.status == Ended ==>
      IsDone(Drive(c, f, p, events).0, f) &&
      Drive(c, f, p, events).1.written == Flatten(Drive(c, f, p, events).0[f].chunks)
    decreases |events|, Fuel(p)
  {
    if events == [] {
      StepDelivers(c, f, p);
      var q := Step(c, f, p);
      if q.status == Polling {
        DriveDelivers(c, f, q, []);
      }
    } else {
      CalmAfter(c, f, events);
      match events[0]
      case Tick =>
        StepDelivers(c, f, p);
        var q := Step(c, f, p);
        if q.status == Polling {
          DriveDelivers(c, f, q, events[1..]);
        }
      case Do(op) =>
        if (op.ResetOp? || op.ClearOp?) && op.name == f {
          assert Disrupts(events[0], f);
        }
        ApplyDelivers(c, f, p, op);
        DriveDelivers(Apply(c, op), f, p, events[1..]);
    }
  }

  /** No reset of `f` among `events`: the one operation that re-creates an entry. */
  predicate NoReset(f: string, events: seq<Event>) {
    forall j :: 0 <= j < |events| ==> !(events[j].Do? && events[j].op == ResetOp(f))
  }

  /** An evicted name comes back only through a reset: without one, a
      download of it can never end, and it times out. */
  lemma {:induction false} AbsentNeverEnds(c: Cache, f: string, p: Pump, events: seq<Event>)
    requires Wf(p) && p.status == Polling && !IsCached(c, f) && NoReset(f, events)
    ensures Drive(c, f, p, events).1.status == Failed
    decreases |events|, Fuel(p)
  {
    if events == [] || events[0].Tick? {
      var q := Step(c, f, p);
      var rest := if events == [] then [] else events[1..];
      if q.status == Polling {
        AbsentNeverEnds(c, f, q, rest);
      }
    } else {
      var op := events[0].op;
      assert op != ResetOp(f);
      AbsentNeverEnds(Apply(c, op), f, p, events[1..]);
    }
  }

  /** Without a reset of the file, a download that ends has written exactly
      the concatenation of the entry's chunks: an eviction of a file with
      chunks means the download never ends. */
  lemma {:induction false} DriveDeliversWithoutReset(c: Cache, f: string, p: Pump, events: seq<Event>)
    requires Wf(p) && p.status == Polling && Delivered(c, f, p) && NoReset(f, events)
    ensures Drive(c, f, p, events).1.status == Ended ==>
      IsDone(Drive(c, f, p, events).0, f) &&
      Drive(c, f, p, events).1.written == Flatten(Drive(c, f, p, events).0[f].chunks)
    decreases |events|, Fuel(p)
  {
    if events == [] || events[0].Tick? {
      StepDelivers(c, f, p);
      var q := Step(c, f, p);
      var rest := if events == [] then [] else events[1..];
      if q.status == Polling {
        DriveDeliversWithoutReset(c, f, q, rest);
      }
    } else {
      var op := events[0].op;
      assert op != ResetOp(f);
      if op == ClearOp(f) && IsCached(c, f) {
        AbsentNeverEnds(Apply(c, op), f, p, events[1..]);
      } else {
        ApplyDelivers(c, f, p, op);
        DriveDeliversWithoutReset(Apply(c, op), f, p, events[1..]);
      }
    }
  }

  /** With no reset of the file during the download, a fresh download that
      ends delivers exactly the concatenation of the entry's chunks. */
  lemma UndisturbedDownloadDeliversAll(c: Cache, f: string, events: seq<Event>)
    requires NoReset(f, events)
    ensures Drive(c, f, Fresh, events).1.status == Ended ==>
      IsDone(Drive(c, f, Fresh, events).0, f) &&
      Drive(c, f, Fresh, events).1.written == Flatten(Drive(c, f, Fresh, events).0[f].chunks)
  {
    DriveDeliversWithoutReset(c, f, Fresh, events);
  }

  /** `done` is raised only by `setDone`. */
  lemma NotDoneStaysNotDone(c: Cache, f: string, op: Op)
    requires !IsDone(c, f) && !(op.DoneOp? && op.name == f)
    ensures !IsDone(Apply(c, op), f)
  {
  }

  /** A download whose entry never becomes done fails with the timeout, and
      only after `sleepCt` has reached MAX_SLEEP_COUNT + 1 = 201 iterations. */
  lemma {:induction false} NeverDoneTimesOut(c: Cache, f: string, p: Pump, events: seq<Event>)
    requires Wf(p) && p.status == Polling && !IsDone(c, f)
    requires forall j :: 0 <= j < |events| ==> !(events[j].Do? && events[j].op == DoneOp(f))
    ensures Drive(c, f, p, events).1.status == Failed
    ensures Drive(c, f, p, events).1.sleepCt == MAX_SLEEP_COUNT + 1
    decreases |events|, Fuel(p)
  {
    if events == [] || events[0].Tick? {
      var q := Step(c, f, p);
      var rest := if events == [] then [] else events[1..];
      if q.status == Polling {
        NeverDoneTimesOut(c, f, q, rest);
      }
    } else {
      var op := events[0].op;
      NotDoneStaysNotDone(c, f, op);
      NeverDoneTimesOut(Apply(c, op), f, p, events[1..]);
    }
  }

  /** A manifest rewritten while a download of it is in progress: the download
      wrote the first version's chunk `[1]`, the rewrite reset the entry to
      `[2]`, `[3]`; the cursor (1) now skips `[2]`, and the response is `[1, 3]`,
      neither version. */
  lemma PlaylistRewriteMixesVersions()
    ensures var f := "manifest.mpd";
      var c := map[f := Entry(false, [[1]])];
      var events := [Tick, Do(ResetOp(f)), Do(AppendOp(f, [2])), Do(AppendOp(f, [3])), Do(DoneOp(f))];
      var r := Drive(c, f, Fresh, events);
      r.1.status == Ended && r.0[f].chunks == [[2], [3]] && r.1.written == [1, 3]
  {
    var f := "manifest.mpd";
    var c := map[f := Entry(false, [[1]])];
    var p1 := Step(c, f, Fresh);
    assert p1 == Pump(1, 1, [1], Polling);
    var c1 := Apply(c, ResetOp(f));
    var c2 := Apply(c1, AppendOp(f, [2]));
    var c3 := Apply(c2, AppendOp(f, [3]));
    var c4 := Apply(c3, DoneOp(f));
    assert c1 == map[f := Entry(false, [])];
    assert Append(c1, f, [2]).value[f].chunks == [] + [[2]] == [[2]];
    assert c2 == map[f := Entry(false, [[2]])];
    assert Append(c2, f, [3]).value[f].chunks == [[2]] + [[3]] == [[2], [3]];
    assert c3 == map[f := Entry(false, [[2], [3]])];
    assert c4 == map[f := Entry(true, [[2], [3]])];
    var p2 := Step(c4, f, p1);
    assert Slice(c4[f].chunks, 1) == [[3]];
    assert Flatten([[3]]) == [3];
    assert p2 == Pump(1, 1, [1, 3], Ended);
    var events := [Tick, Do(ResetOp(f)), Do(AppendOp(f, [2])), Do(AppendOp(f, [3])), Do(DoneOp(f))];
    var e1, e2, e3, e4 := events[1..], events[2..], events[3..], events[4..];
    assert e1[1..] == e2 && e2[1..] == e3 && e3[1..] == e4 && e4[1..] == [];
    calc {
      Drive(c, f, Fresh, events);
      Drive(c, f, p1, e1);
      Drive(c1, f, p1, e2);
      Drive(c2, f, p1, e3);
      Drive(c3, f, p1, e4);
      Drive(c4, f, p1, []);
      Drive(c4, f, p2, []);
    }
  }
}
