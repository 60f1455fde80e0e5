/** The relay server object `UllServer` (index.js:11-226) without its HTTP
    plumbing: the chunk cache it mutates in place, the eviction timers it
    schedules, the request handlers built on the cache (upload, download) and
    the guard around the single transcoder process. */
module Server {
  import opened Naming
  import Store
  import Pump

  /** What a request handler has answered so far: nothing yet (the response
      stays open), `res.end()` with the default 200, or `res.status(400).send()`. */
  datatype Reply = Unanswered | Finished | BadRequest

  /** The JSON message of `/start` and `/stop`. */
  datatype Control = Started | AlreadyStarted | Stopped | AlreadyStopped

  /** An abstract `ChildProcess`: processes are numbered in spawn order. */
  type Handle = nat

  /** The first half of the PUT handler (index.js:70-72): reset when the name
      is not cached or is a manifest, otherwise keep the entry to append to,
      together with its `done` flag. */
  function BeginUpload(c: Store.Cache, f: string): (r: Store.Cache)
    ensures Store.IsCached(r, f)
    ensures r[f].chunks == (if Store.IsCached(c, f) && !IsPlaylist(f) then c[f].chunks else [])
    ensures r[f].done == (Store.IsCached(c, f) && !IsPlaylist(f) && c[f].done)
    ensures r - {f} == c - {f}
  {
    if !Store.IsCached(c, f) || IsPlaylist(f) then Store.Reset(c, f) else c
  }

  /** The cache after a whole upload of `data` that no other request interrupts. */
  function Uploaded(c: Store.Cache, f: string, data: seq<Store.Chunk>): (r: Store.Cache)
    ensures Store.IsDone(r, f)
    ensures r - {f} == c - {f}
  {
    Store.MarkDone(Store.AppendAll(BeginUpload(c, f), f, data), f).value
  }

  /** A manifest upload's entry holds exactly that upload's chunks. */
  lemma PlaylistUploadReplaces(c: Store.Cache, f: string, data: seq<Store.Chunk>)
    requires IsPlaylist(f)
    ensures Uploaded(c, f, data)[f].chunks == data
  {
  }

  /** Any other cached name keeps its earlier chunks and appends after them. */
  lemma CachedUploadAppends(c: Store.Cache, f: string, data: seq<Store.Chunk>)
    requires Store.IsCached(c, f) && !IsPlaylist(f)
    ensures Uploaded(c, f, data)[f].chunks == c[f].chunks + data
  {
  }

  /** A name not cached yet holds exactly the uploaded chunks. */
  lemma NewUploadHoldsData(c: Store.Cache, f: string, data: seq<Store.Chunk>)
    requires !Store.IsCached(c, f)
    ensures Uploaded(c, f, data)[f].chunks == data
  {
  }

  /** Two manifest uploads in a row: only the second one's content remains. */
  lemma RepeatedPlaylistUploadKeepsLast(c: Store.Cache, f: string, first: seq<Store.Chunk>, second: seq<Store.Chunk>)
    requires IsPlaylist(f)
    ensures Uploaded(Uploaded(c, f, first), f, second)[f].chunks == second
  {
  }

  /** The keys every plain JavaScript object inherits from `Object.prototype`;
      each names a function or, for "__proto__", `Object.prototype` itself. */
  const PROTOTYPE_KEYS: set<string> := {
    "constructor", "__proto__", "toString", "toLocaleString", "valueOf",
    "hasOwnProperty", "isPrototypeOf", "propertyIsEnumerable",
    "__defineGetter__", "__defineSetter__", "__lookupGetter__", "__lookupSetter__"
  }

  /** The key through which `this.cache[...]` reaches `Object.prototype`. */
  const PROTO_KEY: string := "__proto__"

  /** `!!this.cache[filename]` as written: a lookup on a `{}` literal also finds
      every truthy member it inherits, the names in `inherited`. It agrees with
      the own-key lookup on every other name. */
  function IsCachedAsWritten(c: Store.Cache, inherited: set<string>, f: string): (b: bool)
    ensures Store.IsCached(c, f) ==> b
    ensures f !in inherited ==> (b <==> Store.IsCached(c, f))
  {
    f in c || f in inherited
  }

  /** The first half of the PUT handler with the lookup as written. */
  function BeginUploadAsWritten(c: Store.Cache, inherited: set<string>, f: string): (r: Store.Cache)
    ensures f !in inherited ==> r == BeginUpload(c, f)
  {
    if !IsCachedAsWritten(c, inherited, f) || IsPlaylist(f) then Store.Reset(c, f) else c
  }

  /** `setDone` as written, giving the cache and the inherited names after it.
      On an inherited function the assignment of `done` succeeds and creates no
      entry. On "__proto__" it writes `done = true` onto `Object.prototype`, so
      from then on every object inherits a truthy "done". On an inherited
      primitive (that `true`) the assignment throws in the class's strict code,
      as it does on a name with no member at all. */
  function MarkDoneAsWritten(c: Store.Cache, inherited: set<string>, f: string): (r: Store.Option<(Store.Cache, set<string>)>)
    ensures r.None? <==> f !in c && f !in PROTOTYPE_KEYS
    ensures f in c ==> r == Store.Some((Store.MarkDone(c, f).value, inherited))
    ensures f !in c && f in PROTOTYPE_KEYS ==>
      r == Store.Some((c, if f == PROTO_KEY then inherited + {"done"} else inherited))
  {
    if f in c then Store.Some((Store.MarkDone(c, f).value, inherited))
    else if f == PROTO_KEY then Store.Some((c, inherited + {"done"}))
    else if f in PROTOTYPE_KEYS then Store.Some((c, inherited))
    else Store.None
  }

  /** As written, uploading a file named "constructor" skips the reset because
      the inherited member looks cached. Every chunk then finds no entry and is
      answered 400 (`Object.chunks` is undefined), while `setDone` succeeds;
      nothing is ever stored under the name. With an empty body the upload is
      answered 200; otherwise the first chunk's 400 is the answer. */
  lemma PrototypeNameUploadStoresNothing(c: Store.Cache, x: Store.Chunk)
    requires "constructor" !in c
    ensures IsCachedAsWritten(c, PROTOTYPE_KEYS, "constructor")
    ensures BeginUploadAsWritten(c, PROTOTYPE_KEYS, "constructor") == c
    ensures Store.Append(BeginUploadAsWritten(c, PROTOTYPE_KEYS, "constructor"), "constructor", x).None?
    ensures MarkDoneAsWritten(BeginUploadAsWritten(c, PROTOTYPE_KEYS, "constructor"), PROTOTYPE_KEYS, "constructor")
      == Store.Some((c, PROTOTYPE_KEYS))
  {
  }

  /** As written, an upload of "__proto__" ends by setting `Object.prototype.done`.
      Afterwards the name "done" looks cached though nothing is stored under it:
      its uploads skip the reset, every chunk fails, and so does the end
      (`true.done = true` throws), so every event is answered 400. */
  lemma ProtoUploadPoisonsDone(c: Store.Cache, x: Store.Chunk)
    requires PROTO_KEY !in c && "done" !in c
    ensures var after := MarkDoneAsWritten(BeginUploadAsWritten(c, PROTOTYPE_KEYS, PROTO_KEY), PROTOTYPE_KEYS, PROTO_KEY);
      && after.Some? && after.value.0 == c
      && !IsCachedAsWritten(c, PROTOTYPE_KEYS, "done")
      && IsCachedAsWritten(c, after.value.1, "done")
      && BeginUploadAsWritten(c, after.value.1, "done") == c
      && Store.Append(BeginUploadAsWritten(c, after.value.1, "done"), "done", x).None?
      && MarkDoneAsWritten(BeginUploadAsWritten(c, after.value.1, "done"), after.value.1, "done").None?
  {
  }

  /** With own-key lookup every upload has an entry to append to after its
      first half, whatever the name. */
  lemma BeginUploadMakesRoom(c: Store.Cache, f: string, x: Store.Chunk)
    ensures Store.Append(BeginUpload(c, f), f, x).Some?
    ensures Store.MarkDone(BeginUpload(c, f), f).Some?
  {
  }

  /** Re-uploading a done segment keeps its `done` flag while the new chunks
      arrive. A download pass at any point of that upload, after some prefix
      `arrived` of the new chunks, ends at once: it writes the unread old
      chunks and the new ones arrived so far, and misses the rest. */
  lemma ReuploadOfDoneSegmentEndsDownloads(c: Store.Cache, f: string, arrived: seq<Store.Chunk>, p: Pump.Pump)
    requires Store.IsDone(c, f) && !IsPlaylist(f) && p.status == Pump.Polling
    ensures Store.IsDone(Store.AppendAll(BeginUpload(c, f), f, arrived), f)
    ensures Pump.Step(Store.AppendAll(BeginUpload(c, f), f, arrived), f, p).status == Pump.Ended
    ensures Pump.Step(Store.AppendAll(BeginUpload(c, f), f, arrived), f, p).written
      == p.written + Store.Flatten(Store.Slice(c[f].chunks + arrived, p.idx))
  {
  }

  class UllServer {
    /** `this.cache` */
    var cache: Store.Cache
    /** Names whose `scheduleClearCache` timer has not fired yet, oldest first;
        all timers have the same delay, so they fire in this order. */
    var timers: seq<string>
    /** `this.instance`: the transcoder handle, absent before `/start`. */
    var instance: Store.Option<Handle>
    /** The transcoder processes that are alive. */
    var running: set<Handle>
    /** How many processes `spawn` has started; also the next handle. */
    var spawned: nat

    /** At most one transcoder is alive, and only the one the server holds. */
    ghost predicate Valid()
      reads this
    {
      && (instance.None? ==> running == {})
      && (instance.Some? ==> running <= {instance.value} && instance.value < spawned)
    }

    /** `start()`: an empty cache, no timers and no transcoder. */
    constructor ()
      ensures Valid()
      ensures cache == map[] && timers == [] && instance == Store.None && running == {} && spawned == 0
    {
      cache := map[];
      timers := [];
      instance := Store.None;
      running := {};
      spawned := 0;
    }

    /** `getChunks`: dereferences the entry unchecked, so it demands that `f`
        is cached; every caller has just seen it cached. */
    function GetChunks(f: string): (r: seq<Store.Chunk>)
      reads this
      requires Store.IsCached(cache, f)
      ensures r == Store.ChunksOf(cache, f)
    {
      cache[f].chunks
    }

    method ResetFileCache(f: string)
      modifies this`cache
      ensures cache == Store.Reset(old(cache), f)
    {
      cache := cache[f := Store.Entry(false, [])];
    }

    /** Returns false where the source throws (no entry under `f`). */
    method CacheChunk(f: string, x: Store.Chunk) returns (ok: bool)
      modifies this`cache
      ensures ok == Store.IsCached(old(cache), f)
      ensures ok ==> cache == Store.Append(old(cache), f, x).value
      ensures !ok ==> cache == old(cache)
    {
      ok := f in cache;
      if ok {
        cache := cache[f := cache[f].(chunks := cache[f].chunks + [x])];
      }
    }

    /** Returns false where the source throws (no entry under `f`). */
    method SetDone(f: string) returns (ok: bool)
      modifies this`cache
      ensures ok == Store.IsCached(old(cache), f)
      ensures ok ==> cache == Store.MarkDone(old(cache), f).value
      ensures !ok ==> cache == old(cache)
    {
      ok := f in cache;
      if ok {
        cache := cache[f := cache[f].(done := true)];
      }
    }

    method ClearFileCache(f: string)
      modifies this`cache
      ensures cache == Store.Clear(old(cache), f)
    {
      cache := cache - {f};
    }

    /** Arms an eviction timer for `f`; it fires later, in `FireTimer`. */
    method ScheduleClearCache(f: string)
      modifies this`timers
      ensures timers == old(timers) + [f]
    {
      timers := timers + [f];
    }

    /** The oldest pending eviction timer fires and deletes its name,
        whether or not that name was uploaded again since. */
    method FireTimer() returns (fired: bool)
      modifies this`cache, this`timers
      ensures fired == (old(timers) != [])
      ensures fired ==> timers == old(timers)[1..] && cache == Store.Clear(old(cache), old(timers)[0])
      ensures !fired ==> timers == old(timers) && cache == old(cache)
    {
      fired := timers != [];
      if fired {
        var f := timers[0];
        timers := timers[1..];
        ClearFileCache(f);
      }
    }

    /** One cache operation of another handler or timer, for `Download`. */
    method Perform(op: Store.Op)
      modifies this`cache
      ensures cache == Store.Apply(old(cache), op)
    {
      match op
      case ResetOp(f) => ResetFileCache(f);
      case AppendOp(f, x) => var _ := CacheChunk(f, x);
      case DoneOp(f) => var _ := SetDone(f);
      case ClearOp(f) => ClearFileCache(f);
    }

    /** PUT, on arrival (index.js:70-75). */
    method UploadBegin(f: string)
      modifies this`cache
      ensures cache == BeginUpload(old(cache), f)
    {
      if !Store.IsCached(cache, f) || IsPlaylist(f) {
        ResetFileCache(f);
      }
    }

    /** PUT, one `data` event (index.js:77-83): 400 when the entry is gone. */
    method UploadData(f: string, x: Store.Chunk) returns (reply: Reply)
      modifies this`cache
      ensures reply == (if Store.IsCached(old(cache), f) then Unanswered else BadRequest)
      ensures cache == Store.Apply(old(cache), Store.AppendOp(f, x))
    {
      var ok := CacheChunk(f, x);
      reply := if ok then Unanswered else BadRequest;
    }

    /** PUT, the `end` event (index.js:85-99): the eviction is armed before
        `setDone`, so even an upload answered 400 here leaves a timer; a
        manifest's response is left open. */
    method UploadEnd(f: string) returns (reply: Reply)
      modifies this`cache, this`timers
      ensures timers == old(timers) + (if IsTempCached(f) then [f] else [])
      ensures cache == Store.Apply(old(cache), Store.DoneOp(f))
      ensures reply == (if !Store.IsCached(old(cache), f) then BadRequest else if IsPlaylist(f) then Unanswered else Finished)
    {
      if IsTempCached(f) {
        ScheduleClearCache(f);
      }
      var ok := SetDone(f);
      if !ok {
        reply := BadRequest;
      } else if !IsPlaylist(f) {
        reply := Finished;
      } else {
        reply := Unanswered;
      }
    }

    /** A whole upload whose events no other request interleaves with. */
    method Upload(f: string, data: seq<Store.Chunk>) returns (reply: Reply)
      modifies this`cache, this`timers
      ensures cache == Uploaded(old(cache), f, data)
      ensures timers == old(timers) + (if IsTempCached(f) then [f] else [])
      ensures reply == (if IsPlaylist(f) then Unanswered else Finished)
    {
      UploadBegin(f);
      ghost var begun := cache;
      for i := 0 to |data|
        invariant cache == Store.AppendAll(begun, f, data[..i])
        invariant timers == old(timers)
      {
        assert data[..i + 1][..i] == data[..i];
        var r := UploadData(f, data[i]);
      }
      assert data[..|data|] == data;
      reply := UploadEnd(f);
    }

    /** One pass of the GET handler's loop (index.js:181-204), or, once the
        entry is done, the code after it (index.js:206-215). */
    method DownloadStep(f: string, p: Pump.Pump) returns (q: Pump.Pump)
      requires p.status == Pump.Polling
      ensures q == Pump.Step(cache, f, p)
    {
      if Store.IsDone(cache, f) {
        var chunks := Store.Slice(GetChunks(f), p.idx);
        q := p.(written := p.written + Store.Flatten(chunks), status := Pump.Ended);
        return;
      }
      if p.sleepCt > Pump.MAX_SLEEP_COUNT {
        q := p.(status := Pump.Failed);
        return;
      }
      if !Store.IsCached(cache, f) {
        q := p.(sleepCt := p.sleepCt + 1);
        return;
      }
      var chunks := Store.Slice(GetChunks(f), p.idx);
      var length := |chunks|;
      if length == 0 {
        q := p.(sleepCt := p.sleepCt + 1);
        return;
      }
      q := Pump.Pump(p.idx + length, p.sleepCt + 1, p.written + Store.Flatten(chunks), Pump.Polling);
    }

    /** The GET handler from its first test to its end, with the cache
        operations `events` performs at its `await`s. */
    method Download(f: string, events: seq<Pump.Event>) returns (p: Pump.Pump)
      modifies this`cache
      ensures (cache, p) == Pump.Drive(old(cache), f, Pump.Fresh, events)
    {
      p := Pump.Fresh;
      var rest := events;
      while p.status == Pump.Polling
        invariant Pump.Wf(p)
        invariant Pump.Drive(cache, f, p, rest) == Pump.Drive(old(cache), f, Pump.Fresh, events)
        decreases |rest|, Pump.Fuel(p)
      {
        if rest != [] && rest[0].Do? {
          Perform(rest[0].op);
          rest := rest[1..];
        } else {
          p := DownloadStep(f, p);
          if rest != [] {
            rest := rest[1..];
          }
        }
      }
    }

    /** POST /start (index.js:24-30, 45-58): spawns only when no handle is held. */
    method Start() returns (reply: Control)
      requires Valid()
      modifies this`instance, this`running, this`spawned
      ensures Valid()
      ensures old(instance).Some? ==>
        reply == AlreadyStarted && instance == old(instance) && running == old(running) && spawned == old(spawned)
      ensures old(instance).None? ==>
        reply == Started && instance == Store.Some(old(spawned)) && running == {old(spawned)} && spawned == old(spawned) + 1
    {
      if instance.Some? {
        return AlreadyStarted;
      }
      instance := Store.Some(spawned);
      running := running + {spawned};
      spawned := spawned + 1;
      reply := Started;
    }

    /** POST /stop (index.js:32-38, 60-63): kills the held process and drops the handle. */
    method Stop() returns (reply: Control)
      requires Valid()
      modifies this`instance, this`running
      ensures Valid()
      ensures old(instance).None? ==> reply == AlreadyStopped && instance == old(instance) && running == old(running)
      ensures old(instance).Some? ==> reply == Stopped && instance == Store.None && running == {}
    {
      if instance.None? {
        return AlreadyStopped;
      }
      running := running - {instance.value};
      instance := Store.None;
      reply := Stopped;
    }

    /** The transcoder exits by itself; the `close` listener (index.js:55-57)
        only logs, so the handle stays set. */
    method ProcessClosed(h: Handle)
      requires Valid()
      modifies this`running
      ensures Valid()
      ensures running == old(running) - {h}
    {
      running := running - {h};
    }
  }

  /** Two `/start`s in a row: the second reports "already started" and only one
      process is ever spawned. */
  method StartTwiceSpawnsOnce() returns (first: Control, second: Control, processes: nat)
    ensures first == Started && second == AlreadyStarted && processes == 1
  {
    var server := new UllServer();
    first := server.Start();
    second := server.Start();
    processes := server.spawned;
  }

  /** After the transcoder crashes, `/start` still answers "already started"
      and no transcoder runs until `/stop` drops the stale handle. */
  method CrashedTranscoderBlocksStart() returns (reply: Control, alive: nat, afterStop: Control)
    ensures reply == AlreadyStarted && alive == 0 && afterStop == Started
  {
    var server := new UllServer();
    var _ := server.Start();
    server.ProcessClosed(0);
    reply := server.Start();
    alive := |server.running|;
    var _ := server.Stop();
    afterStop := server.Start();
  }
}
