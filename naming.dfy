/** File-name classification of the relay server (index.js:107-121).
    Every class is a plain prefix or suffix test on the name as it arrives in
    the request path; the classes are independent axes, not a partition. */
module Naming {

  const CHUNK_PREFIX: string := "chunk"
  const SEGMENT_SUFFIX: string := ".m4s"
  const PLAYLIST_SUFFIX: string := ".mpd"

  /** `s.startsWith(prefix)` */
  predicate StartsWith(s: string, prefix: string) {
    |prefix| <= |s| && s[..|prefix|] == prefix
  }

  /** `s.endsWith(suffix)` */
  predicate EndsWith(s: string, suffix: string) {
    |suffix| <= |s| && s[|s| - |suffix|..] == suffix
  }

  /** The index test above agrees with the algebraic reading of "begins with". */
  lemma StartsWithIff(s: string, prefix: string)
    ensures StartsWith(s, prefix) <==> exists rest :: s == prefix + rest
  {
    if StartsWith(s, prefix) {
      assert s == prefix + s[|prefix|..];
    }
    if exists rest :: s == prefix + rest {
      var rest :| s == prefix + rest;
      assert s[..|prefix|] == prefix;
    }
  }

  /** The index test above agrees with the algebraic reading of "ends with". */
  lemma EndsWithIff(s: string, suffix: string)
    ensures EndsWith(s, suffix) <==> exists front :: s == front + suffix
  {
    if EndsWith(s, suffix) {
      assert s == s[..|s| - |suffix|] + suffix;
    }
    if exists front :: s == front + suffix {
      var front :| s == front + suffix;
      assert s[|s| - |suffix|..] == suffix;
    }
  }

  /** A media fragment: long cache lifetime, video content type. */
  function IsSegment(f: string): (b: bool)
    ensures b <==> exists front :: f == front + SEGMENT_SUFFIX
  {
    EndsWithIff(f, SEGMENT_SUFFIX);
    EndsWith(f, SEGMENT_SUFFIX)
  }

  /** A manifest: reset on every upload, its upload response is left open. */
  function IsPlaylist(f: string): (b: bool)
    ensures b <==> exists front :: f == front + PLAYLIST_SUFFIX
  {
    EndsWithIff(f, PLAYLIST_SUFFIX);
    EndsWith(f, PLAYLIST_SUFFIX)
  }

  /** A transient file: evicted some time after its upload ends. */
  function IsTempCached(f: string): (b: bool)
    ensures b <==> exists rest :: f == CHUNK_PREFIX + rest
  {
    StartsWithIff(f, CHUNK_PREFIX);
    StartsWith(f, CHUNK_PREFIX)
  }

  /** A transient media fragment. */
  function IsChunk(f: string): (b: bool)
    ensures b <==> IsTempCached(f) && IsSegment(f)
  {
    StartsWith(f, CHUNK_PREFIX) && EndsWith(f, SEGMENT_SUFFIX)
  }

  /** The two suffix classes never overlap, so a name gets at most one content type. */
  lemma SegmentIsNotPlaylist(f: string)
    ensures !(IsSegment(f) && IsPlaylist(f))
  {
  }

  /** The names the transcoder produces fall into the expected classes. */
  lemma ClassifiesStreamNames()
    ensures IsChunk("chunk001.m4s") && IsTempCached("chunk001.m4s")
    ensures IsPlaylist("manifest.mpd") && !IsSegment("manifest.mpd") && !IsTempCached("manifest.mpd")
    ensures IsSegment("init-stream0.m4s") && !IsTempCached("init-stream0.m4s")
  {
    assert "chunk001.m4s" == CHUNK_PREFIX + "001.m4s";
    assert "chunk001.m4s" == "chunk001" + SEGMENT_SUFFIX;
    assert "manifest.mpd" == "manifest" + PLAYLIST_SUFFIX;
    assert "init-stream0.m4s" == "init-stream0" + SEGMENT_SUFFIX;
    assert "manifest.mpd"[0] != CHUNK_PREFIX[0];
    assert "init-stream0.m4s"[0] != CHUNK_PREFIX[0];
    SegmentIsNotPlaylist("manifest.mpd");
  }
}
