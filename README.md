# Low-latency DASH relay: chunk cache, uploads, downloads, transcoder guard

This project models the core of `UllServer` (`index.js`). The server relays a
live DASH stream from one producer, the transcoder, to many consumers. Each
consumer may start reading a file before the producer has finished writing it.
Four pieces are modelled and proved in Dafny:

- **Chunk cache** (`store.dfy`, module `Store`): `this.cache` maps a file name
  to `{done, chunks}`. `Reset`, `Append`, `MarkDone` and `Clear` are the pure
  meaning of `resetFileCache`, `cacheChunk`, `setDone` and `clearFileCache`.
  `Append` and `MarkDone` return `None` where the source throws because no
  entry exists. `Flatten` is `Buffer.concat` and `Slice` is `Array.slice`.
- **File-name classification** (`naming.dfy`, module `Naming`): `isChunk`,
  `isSegment`, `isPlaylist` and `isTempCached` as exact prefix and suffix tests.
- **Download loop** (`pump.dfy`, module `Pump`): `Step` is one pass through the
  GET handler's `while` loop, or, once the entry is done, the code after the
  loop. `Drive` runs a download with other cache operations between its steps.
  Those operations can only happen at the loop's `await`.
- **The server object** (`server.dfy`, class `Server.UllServer`): it holds the
  cache and reassigns it in place. It also holds the pending eviction timers
  and the transcoder handle. Its methods are the cache operations, the three
  PUT event handlers and their composition `Upload`, one download iteration
  (`DownloadStep`), the whole download loop (`Download`), and `/start`,
  `/stop` and the process's own exit.

Five behaviours of the code are easy to miss, and the model keeps them:

- `sleepCt` is incremented after a successful drain as well as after a wait,
  and it is never reset. It therefore bounds the total number of loop passes,
  not idle time. A download whose entry is not done after 201 passes fails,
  even if data kept arriving.
- A manifest rewritten while a download of it is in progress is not delivered
  cleanly. The download's cursor is not reset, so it skips the start of the
  new version (`Pump.PlaylistRewriteMixesVersions`).
- The download handler never checks for a client disconnect. A download keeps
  polling until its entry is done or the timeout fires.
- Re-uploading a non-manifest name that is already done keeps `done` set
  while the new chunks arrive. A download pass during that upload ends at
  once with whatever chunks have arrived so far, missing the rest of the
  re-upload (`Server.ReuploadOfDoneSegmentEndsDownloads`).
- A transcoder that exits on its own leaves `this.instance` set. `/start` then
  answers "already started" until `/stop` is called.

## Model

| member | source | states |
|---|---|---|
| `Naming.StartsWithIff` | index.js:108 | the index-based `startsWith` test holds iff the name is the prefix followed by some rest |
| `Naming.EndsWithIff` | index.js:112 | the index-based `endsWith` test holds iff the name is some front followed by the suffix |
| `Naming.StartsWith` | index.js:108 | `s.startsWith(prefix)`: the prefix is no longer than the name and equals its first characters (definition; `Naming.StartsWithIff` is its partner) |
| `Naming.EndsWith` | index.js:112 | `s.endsWith(suffix)`: the suffix is no longer than the name and equals its last characters (definition; `Naming.EndsWithIff` is its partner) |
| `Naming.IsSegment` | index.js:111-113 | true iff the name ends with ".m4s" |
| `Naming.IsPlaylist` | index.js:115-117 | true iff the name ends with ".mpd" |
| `Naming.IsTempCached` | index.js:119-121 | true iff the name starts with "chunk" |
| `Naming.IsChunk` | index.js:107-109 | true iff the name is temp-cached and a segment |
| `Naming.SegmentIsNotPlaylist` | index.js:111-117 | no name is both a segment and a playlist |
| `Naming.ClassifiesStreamNames` | index.js:107-121 | "chunk001.m4s" is a chunk; "manifest.mpd" is only a playlist; "init-stream0.m4s" is a segment that is not evicted |
| `Store.IsCached` | index.js:103-105 | `isCached` with own-key lookup: an entry is stored under the name (definition; the inherited keys are in `Server.IsCachedAsWritten`) |
| `Store.ChunksOf` | index.js:144-146 | the chunks a reader sees under a name, none when nothing is cached (definition; `Store.ClearForgets` and `Store.AppendKeepsPrefix` state its behaviour) |
| `Store.IsDone` | index.js:152-154 | a name that is done is cached |
| `Store.Reset` | index.js:133-138 | afterwards the name is cached, not done and holds no chunks; every other name is unchanged |
| `Store.Append` | index.js:140-142 | fails iff the name is not cached; otherwise the chunks are the old chunks plus the new one, `done` is unchanged and every other name is unchanged |
| `Store.MarkDone` | index.js:148-150 | fails iff the name is not cached; otherwise the name is done with its chunks unchanged, and every other name is unchanged |
| `Store.Clear` | index.js:129-131 | exactly the name is removed; every other name is unchanged |
| `Store.MarkDoneIdempotent` | index.js:148-150 | marking a cached name done twice gives the same cache as marking it once |
| `Store.ClearForgets` | index.js:129-131 | after a clear the name is neither cached nor done, and a reader sees no chunks |
| `Store.AppendKeepsPrefix` | index.js:140-142 | an append leaves every prefix a reader has already seen unchanged |
| `Store.AppendAll` | index.js:77-83 | a run of data events appends the data after the existing chunks, keeps `done`, and changes no other name |
| `Store.Flatten` | index.js:199 | `Buffer.concat`: the bytes of the chunks in order (definition; `Store.FlattenConcat` and `Store.FlattenSplit` state its algebra) |
| `Store.Slice` | index.js:191 | `chunks.slice(idx)`: the prefix up to the cursor followed by the result is the whole list; past the end the result is empty |
| `Store.FlattenConcat` | index.js:199 | concatenating the bytes of two chunk lists equals the bytes of the joined list |
| `Store.FlattenSplit` | index.js:198-199 | the bytes of a prefix followed by the bytes of the rest are the bytes of the whole list |
| `Store.Apply` | index.js:129-150 | a cache operation changes nothing outside its own name |
| `Pump.Step` | index.js:181-215 | ends iff the entry is done; fails iff it is not done and `sleepCt` exceeds 200; otherwise `sleepCt` grows by exactly one; the cursor advances by exactly the length of the unread slice; the bytes written are the concatenation of that slice |
| `Pump.StepMonotone` | index.js:191-198 | a step never moves the cursor back, only extends what was written, and keeps a polling download under the timeout bound |
| `Pump.DrainedDoneEndsSilently` | index.js:206-211 | a download that has read all of a done entry ends without writing anything more |
| `Pump.StepDelivers` | index.js:191-215 | if what was written equals the chunks before the cursor, this still holds after a step, and an ended download has written every chunk |
| `Pump.ApplyDelivers` | index.js:140-150 | an append, a done flag or an operation on another name keeps a download's output consistent with the entry; so does a reset or clear while the entry holds no chunks |
| `Pump.NotDoneStaysNotDone` | index.js:148-150 | only `setDone` on the name itself can make it done |
| `Pump.Drive` | index.js:179-204 | every download leaves the loop; a failed one failed with `sleepCt` at exactly 201; earlier output is never taken back |
| `Pump.DriveDelivers` | index.js:179-215 | if no reset or eviction takes back chunks, a download that ends does so only once the entry is done, and its output is exactly the concatenation of the entry's chunks |
| `Pump.AbsentNeverEnds` | index.js:180-204 | a download of a name that is not cached, with no reset of it to come, never ends and fails with the timeout; so after an eviction of a name that holds chunks, the download cannot end |
| `Pump.DriveDeliversWithoutReset` | index.js:179-215 | with no reset of the name, a download that ends has ended only once the entry is done, and has written exactly the concatenation of the entry's chunks |
| `Pump.UndisturbedDownloadDeliversAll` | index.js:179-215 | with no reset of the name during a fresh download, an ended download delivered the whole entry in order |
| `Pump.NeverDoneTimesOut` | index.js:180-204 | if the entry never becomes done, the download fails, and only after 201 passes through the loop |
| `Pump.PlaylistRewriteMixesVersions` | index.js:191-198 | a manifest reset during a download leaves the cursor past the new first chunk, so the response is neither version |
| `Server.BeginUpload` | index.js:70-72 | afterwards the name is cached; it keeps its chunks and its `done` flag iff it was cached and is not a playlist, otherwise it holds no chunks and is not done; other names are unchanged |
| `Server.Uploaded` | index.js:65-99 | after a whole upload the name is done and no other name has changed |
| `Server.PlaylistUploadReplaces` | index.js:70-79 | after a playlist upload the entry holds exactly that upload's chunks |
| `Server.CachedUploadAppends` | index.js:70-79 | a cached non-playlist name keeps its old chunks and gets the upload's chunks after them |
| `Server.NewUploadHoldsData` | index.js:70-79 | a name uploaded for the first time holds exactly the uploaded chunks |
| `Server.RepeatedPlaylistUploadKeepsLast` | index.js:70-72 | after two playlist uploads only the second upload's content remains |
| `Server.IsCachedAsWritten` | index.js:103-105 | `!!this.cache[filename]` as written, given the names the cache object currently inherits: true for every stored name, and on names not inherited it agrees with `Store.IsCached` |
| `Server.BeginUploadAsWritten` | index.js:70-72 | the first half of the PUT handler with the lookup as written: on names not inherited it equals `Server.BeginUpload` |
| `Server.MarkDoneAsWritten` | index.js:148-150 | `setDone` as written: throws iff the name is neither stored nor an inherited function or `Object.prototype`; on a stored name it is `Store.MarkDone`; on an inherited one it leaves the cache unchanged, and on "__proto__" it adds "done" to the inherited names |
| `Server.PrototypeNameUploadStoresNothing` | index.js:70-99 | with the lookup as written, an upload of "constructor" to a cache without it skips the reset; every chunk fails (400), `setDone` succeeds, and the cache is unchanged |
| `Server.ProtoUploadPoisonsDone` | index.js:70-99 | with the lookup as written, an upload of "__proto__" makes "done" look cached with nothing stored; an upload of "done" then skips the reset and fails at every chunk and at its end |
| `Server.BeginUploadMakesRoom` | index.js:70-83 | with own-key lookup, every upload finds an entry for its chunks and its end |
| `Server.ReuploadOfDoneSegmentEndsDownloads` | index.js:70-72 | re-uploading a done non-manifest name keeps it done, so a download pass at any point of that upload ends at once, writing the unread old chunks and the new chunks arrived so far, missing the rest |
| `Server.UllServer.constructor` | index.js:16 | the server starts with an empty cache, no timers and no transcoder |
| `Server.UllServer.GetChunks` | index.js:144-146 | `getChunks`: demands that the name is cached, as the unchecked dereference does, and returns the chunks a reader sees (`Store.ChunksOf`) |
| `Server.UllServer.ResetFileCache` | index.js:133-138 | the new cache is `Store.Reset` of the old one |
| `Server.UllServer.CacheChunk` | index.js:140-142 | succeeds iff the name was cached; on success the new cache is `Store.Append` of the old one, on failure the cache is unchanged |
| `Server.UllServer.SetDone` | index.js:148-150 | succeeds iff the name was cached; on success the new cache is `Store.MarkDone` of the old one, on failure the cache is unchanged |
| `Server.UllServer.ClearFileCache` | index.js:129-131 | the new cache is `Store.Clear` of the old one |
| `Server.UllServer.ScheduleClearCache` | index.js:123-127 | arms one more eviction timer for the name, after those already pending |
| `Server.UllServer.FireTimer` | index.js:124-126 | the oldest pending timer fires and clears its name, whether or not the name was uploaded again; with none pending, nothing changes |
| `Server.UllServer.Perform` | index.js:129-150 | one cache operation has the effect `Store.Apply` gives it |
| `Server.UllServer.UploadBegin` | index.js:69-75 | the cache becomes `BeginUpload` of the old cache |
| `Server.UllServer.UploadData` | index.js:77-83 | appends the chunk; the reply is 400 iff the name was not cached |
| `Server.UllServer.UploadEnd` | index.js:85-99 | arms eviction iff the name starts with "chunk", and does so before `setDone`; marks the name done; the reply is 400 if it was not cached, left open for a playlist, and the response is ended otherwise |
| `Server.UllServer.Upload` | index.js:65-100 | a whole upload leaves the cache as `Uploaded` gives it, arms eviction only for "chunk" names, and ends the response only for non-playlists |
| `Server.UllServer.DownloadStep` | index.js:181-215 | one loop pass over the live cache computes exactly `Pump.Step` |
| `Server.UllServer.Download` | index.js:165-220 | the GET handler, with cache operations interleaved at its `await`s, ends in the cache and the download state `Pump.Drive` gives |
| `Server.UllServer.Start` | index.js:24-30 | spawns a process iff no handle is held, and answers "already started" otherwise; at most one process is alive |
| `Server.UllServer.Stop` | index.js:32-38 | kills the held process and drops the handle, and answers "already stopped" if there is none |
| `Server.UllServer.ProcessClosed` | index.js:55-57 | a process that exits by itself stops running, but the handle stays set |
| `Server.StartTwiceSpawnsOnce` | index.js:24-30 | two `/start` calls give "started" and then "already started", and only one process is spawned |
| `Server.CrashedTranscoderBlocksStart` | index.js:55-57 | after a crash, `/start` answers "already started" with no process alive; after `/stop`, `/start` spawns again |

## Left out

- HTTP plumbing is not modelled: Express routing, CORS, compression, the `Transfer-Encoding`, `Content-Type` and `Cache-Control` headers, the health check, `listen` and `server.close`. The only responses kept are "ended", "left open" and 400.
- `Pump.Failed` models the thrown "max sleep count reached" error only. Once a download has written bytes, the real 400 can no longer change the status line, and this is not modelled.
- A 400 answered twice by one upload is not modelled. Each `data` event after a failed one answers 400 again, and so does the `end` event. The model records each event's reply on its own.
- The transcoder is modelled only by abstract handles. `spawn`, its arguments, the stderr "started" log and `console.log` are left out. `kill()` is modelled as the process stopping at once; the real signal is asynchronous.
- Time is not modelled. `CACHE_DURATION` (3000 s) and `TIME_SLEEP_MS` (50 ms) appear only as order. Eviction timers are a FIFO of pending names, which is how equal-delay timers fire. A sleep is the boundary between two steps.
- `Upload` assumes no other request interleaves with the upload's own events. The separate `UploadBegin`, `UploadData` and `UploadEnd` handlers allow any interleaving. `Download` interleaves the cache operations those handlers and the timers perform.
- `getChunks` returns the live array, but its only caller copies it with `slice`. Entries are therefore values in the model.
- Names are sequences of Dafny characters. JavaScript strings are UTF-16 units, and only the literal prefixes and suffixes matter here.
- `Download` takes an eviction that fires during a download as a plain clear operation; it does not remove that timer from `timers`. `FireTimer` is the operation that does both.
- Keys inherited from `Object.prototype` are not treated as cached by the model. The source's lookup sees them; see Findings. The as-written members cover uploads only: after `Object.prototype.done` is set, `isDone("done")` is also true, and a download of "done" would throw at the `slice` of `getChunks`' undefined result; this is not modelled.

## Findings

| source | as written | input that shows it | evidently intended | confidence | as-written member | corrected member |
|---|---|---|---|---|---|---|
| index.js:103-105 | `!!this.cache[filename]` is true for members every object inherits, such as `constructor` and `toString` | PUT of "constructor" on a fresh server: the reset is skipped, so every `cacheChunk` throws and the first data event answers 400; `setDone` then assigns `Object.done` without throwing and nothing is stored. Only with an empty body is the upload answered 200 | a lookup of own entries only (a `Map` or a prototype-free object), so that such names upload like any other | not executed; high | `Server.PrototypeNameUploadStoresNothing` | `Server.BeginUploadMakesRoom` |
| index.js:103-105 | the same lookup finds `Object.prototype` under "__proto__", and `setDone` then writes `done` onto it | PUT of "__proto__", then PUT of "done": the first sets `Object.prototype.done = true`, so "done" looks cached; its reset is skipped and every chunk and its end throw, answering 400 | a lookup of own entries only (a `Map` or a prototype-free object), so that "__proto__" gets an entry of its own and "done" uploads like any other | not executed; high | `Server.ProtoUploadPoisonsDone` | `Server.BeginUploadMakesRoom` |
