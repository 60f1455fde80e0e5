/** The in-memory chunk cache of the relay server (`this.cache`, index.js:16),
    as a value: a dictionary from file name to an entry holding the chunks
    received so far and a completion flag. The server class in module Server
    holds one such value and reassigns it; the pure operations here are what
    its methods are specified by. */
module Store {

  newtype byte = b: int | 0 <= b < 256

  /** One `data` event's buffer. */
  type Chunk = seq<byte>

  /** `{ done, chunks }` */
  datatype Entry = Entry(done: bool, chunks: seq<Chunk>)

  type Cache = map<string, Entry>

  datatype Option<T> = None | Some(value: T)

  /** `isCached`: an entry is stored under `f` (own keys only; see README, Findings). */
  predicate IsCached(c: Cache, f: string) {
    f in c
  }

  /** `isDone`: cached and flagged complete. */
  function IsDone(c: Cache, f: string): (b: bool)
    ensures b ==> IsCached(c, f)
  {
    IsCached(c, f) && c[f].done
  }

  /** The chunks a reader sees under `f`, none when nothing is cached. */
  function ChunksOf(c: Cache, f: string): seq<Chunk> {
    if f in c then c[f].chunks else []
  }

  /** `resetFileCache`: create or overwrite the entry, discarding earlier chunks. */
  function Reset(c: Cache, f: string): (r: Cache)
    ensures IsCached(r, f) && !IsDone(r, f) && r[f].chunks == []
    ensures r - {f} == c - {f}
  {
    c[f := Entry(false, [])]
  }

  /** `cacheChunk`: push onto the entry's chunk list; throws (None) when `f` is not cached. */
  function Append(c: Cache, f: string, x: Chunk): (r: Option<Cache>)
    ensures r.None? <==> !IsCached(c, f)
    ensures r.Some? ==> f in r.value && r.value[f].done == c[f].done && r.value[f].chunks == c[f].chunks + [x]
    ensures r.Some? ==> r.value - {f} == c - {f}
  {
    if f in c then Some(c[f := c[f].(chunks := c[f].chunks + [x])]) else None
  }

  /** `setDone`: raise the completion flag; throws (None) when `f` is not cached. */
  function MarkDone(c: Cache, f: string): (r: Option<Cache>)
    ensures r.None? <==> !IsCached(c, f)
    ensures r.Some? ==> IsDone(r.value, f) && r.value[f].chunks == c[f].chunks
    ensures r.Some? ==> r.value - {f} == c - {f}
  {
    if f in c then Some(c[f := c[f].(done := true)]) else None
  }

  /** `clearFileCache`: `delete`, a no-op when nothing is stored under `f`. */
  function Clear(c: Cache, f: string): (r: Cache)
    ensures r.Keys == c.Keys - {f}
    ensures r - {f} == c - {f}
  {
    c - {f}
  }

  /** Marking done twice is marking done once. */
  lemma MarkDoneIdempotent(c: Cache, f: string)
    requires IsCached(c, f)
    ensures MarkDone(MarkDone(c, f).value, f) == MarkDone(c, f)
  {
    var once := MarkDone(c, f).value;
    assert once[f].(done := true) == once[f];
    assert once[f := once[f]] == once;
  }

  /** After eviction the name is neither cached nor done. */
  lemma ClearForgets(c: Cache, f: string)
    ensures !IsCached(Clear(c, f), f) && !IsDone(Clear(c, f), f)
    ensures ChunksOf(Clear(c, f), f) == []
  {
  }

  /** Append-only growth: what a reader saw before an append is still a prefix after it. */
  lemma AppendKeepsPrefix(c: Cache, f: string, x: Chunk, seen: nat)
    requires seen <= |ChunksOf(c, f)|
    ensures ChunksOf(c, f)[..seen] == ChunksOf(Apply(c, AppendOp(f, x)), f)[..seen]
  {
  }

  /** Pushes `data` one chunk at a time, as successive `data` events do. */
  function AppendAll(c: Cache, f: string, data: seq<Chunk>): (r: Cache)
    requires IsCached(c, f)
    ensures f in r && r[f].done == c[f].done && r[f].chunks == c[f].chunks + data
    ensures r - {f} == c - {f}
    decreases |data|
  {
    if data == [] then c
    else
      var front := AppendAll(c, f, data[..|data| - 1]);
      assert data == data[..|data| - 1] + [data[|data| - 1]];
      Append(front, f, data[|data| - 1]).value
  }

  /** `Buffer.concat`: the bytes of the chunks in order. */
  function Flatten(chunks: seq<Chunk>): seq<byte> {
    if chunks == [] then [] else chunks[0] + Flatten(chunks[1..])
  }

  lemma {:induction false} FlattenConcat(a: seq<Chunk>, b: seq<Chunk>)
    ensures Flatten(a + b) == Flatten(a) + Flatten(b)
    decreases |a|
  {
    if a == [] {
      assert a + b == b;
    } else {
      assert (a + b)[1..] == a[1..] + b;
      FlattenConcat(a[1..], b);
    }
  }

  /** Reading a prefix and then the rest delivers the whole. */
  lemma FlattenSplit(s: seq<Chunk>, i: nat)
    requires i <= |s|
    ensures Flatten(s[..i]) + Flatten(s[i..]) == Flatten(s)
  {
    assert s == s[..i] + s[i..];
    FlattenConcat(s[..i], s[i..]);
  }

  /** `Array.prototype.slice(i)`: empty when `i` is at or past the end. */
  function Slice(s: seq<Chunk>, i: nat): (r: seq<Chunk>)
    ensures i <= |s| ==> s == s[..i] + r
    ensures i > |s| ==> r == []
  {
    if i <= |s| then s[i..] else []
  }

  /** A cache operation performed by some other request handler or timer. */
  datatype Op =
    | ResetOp(name: string)
    | AppendOp(name: string, chunk: Chunk)
    | DoneOp(name: string)
    | ClearOp(name: string)

  /** The effect of `op` on the cache; an operation that throws leaves the cache as it was. */
  function Apply(c: Cache, op: Op): (r: Cache)
    ensures r - {op.name} == c - {op.name}
  {
    match op
    case ResetOp(f) => Reset(c, f)
    case AppendOp(f, x) => (match Append(c, f, x) case Some(d) => d case None => c)
    case DoneOp(f) => (match MarkDone(c, f) case Some(d) => d case None => c)
    case ClearOp(f) => Clear(c, f)
  }
}
