/**
 * The file-name and file-format rule of `_get_media_meta`: which media kinds take
 * their format from the MIME type, and how the destination path is assembled.
 * The timestamp text and the base directory are opaque inputs, and a path is the
 * list of components handed to the path joiner.
 */
module MediaMeta {
  import opened Wrappers

  /**
   * `s.split("/")[-1]`: the text after the last slash, or all of `s` when it has
   * none; computed from the end of `s` back to the nearest slash.
   */
  function LastSegment(s: string): (t: string)
    ensures |t| <= |s| && '/' !in t
    decreases |s|
  {
    if s == [] || s[|s| - 1] == '/' then []
    else LastSegment(s[..|s| - 1]) + [s[|s| - 1]]
  }

  /** The last segment is a suffix of the text. */
  lemma {:induction false} LastSegmentIsSuffix(s: string)
    ensures var t := LastSegment(s); s[|s| - |t|..] == t
    decreases |s|
  {
    if s != [] && s[|s| - 1] != '/' {
      var s', c := s[..|s| - 1], s[|s| - 1];
      LastSegmentIsSuffix(s');
      var t' := LastSegment(s');
      assert s[|s| - |t'| - 1..] == s'[|s'| - |t'|..] + [c];
    }
  }

  /** The last segment is the whole text or starts right after a slash. */
  lemma {:induction false} LastSegmentMaximal(s: string)
    ensures var t := LastSegment(s);
      |t| == |s| || s[|s| - |t| - 1] == '/'
    decreases |s|
  {
    if s != [] && s[|s| - 1] != '/' {
      var s' := s[..|s| - 1];
      LastSegmentMaximal(s');
      var t' := LastSegment(s');
      if |t'| < |s'| {
        assert s[|s| - |t'| - 2] == s'[|s'| - |t'| - 1];
      }
    }
  }

  /** Slash-free text appended to `s` extends its last segment. */
  lemma {:induction false} LastSegmentAppend(s: string, b: string)
    requires '/' !in b
    ensures LastSegment(s + b) == LastSegment(s) + b
    decreases |b|
  {
    if b == [] {
      assert s + b == s;
    } else {
      var b', c := b[..|b| - 1], b[|b| - 1];
      var x := s + b';
      SnocParts(s, b);
      assert c in b;
      assert LastSegment(x + [c]) == LastSegment(x) + [c];
      LastSegmentAppend(s, b');
    }
  }

  lemma SnocParts(s: string, b: string)
    requires b != []
    ensures s + b == (s + b[..|b| - 1]) + [b[|b| - 1]]
    ensures ((s + b[..|b| - 1]) + [b[|b| - 1]])[..|s| + |b| - 1] == s + b[..|b| - 1]
    ensures b[..|b| - 1] + [b[|b| - 1]] == b
  {
    assert b == b[..|b| - 1] + [b[|b| - 1]];
  }

  /** A MIME type `prefix/tail` with a slash-free tail has format `tail`. */
  lemma LastSegmentAfterSlash(prefix: string, tail: string)
    requires '/' !in tail
    ensures LastSegment(prefix + "/" + tail) == tail
  {
    var p := prefix + "/";
    assert p[|p| - 1] == '/';
    assert LastSegment(p) == [];
    LastSegmentAppend(p, tail);
  }

  /** The attributes of a media object the rule reads. */
  datatype Media = Media(mimeType: string, date: string, fileName: Option<string>)

  predicate FormatFromMime(kind: string)
  {
    kind in ["audio", "document", "video", "voice", "video_note"]
  }

  predicate NamedByDate(kind: string)
  {
    kind in ["voice", "video_note"]
  }

  /** The path components and the file format for a media object of the given kind. */
  function GetMediaMeta(media: Media, kind: string, thisDir: string): (r: (seq<string>, Option<string>))
    ensures |r.0| == 3 && r.0[0] == thisDir && r.0[1] == kind
    ensures r.1.Some? <==> FormatFromMime(kind)
    ensures r.1.Some? ==> r.1.value == LastSegment(media.mimeType)
    ensures NamedByDate(kind) ==> r.1.Some? && r.0[2] == DatedFileName(kind, media.date, r.1.value)
    ensures !NamedByDate(kind) ==> r.0[2] == (if media.fileName.Some? then media.fileName.value else "")
  {
    var format := if FormatFromMime(kind) then Some(LastSegment(media.mimeType)) else None;
    if NamedByDate(kind) then
      var fmt := LastSegment(media.mimeType);
      ([thisDir, kind, DatedFileName(kind, media.date, fmt)], Some(fmt))
    else
      var name := if media.fileName.Some? then media.fileName.value else "";
      ([thisDir, kind, name], format)
  }

  /** `"{}_{}.{}".format(kind, date, fmt)`, the name of a voice or video note. */
  function DatedFileName(kind: string, date: string, fmt: string): string
  {
    kind + "_" + date + "." + fmt
  }

  /** Photos and unknown kinds get no format and keep their own file name. */
  lemma NoFormatForPhotos(media: Media, thisDir: string)
    ensures GetMediaMeta(media, "photo", thisDir) == ([thisDir, "photo", if media.fileName.Some? then media.fileName.value else ""], None)
  {
  }
}
