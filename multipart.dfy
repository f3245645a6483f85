/**
 * The bytes of the `multipart/x-mixed-replace` stream served on
 * `/video_feed`: every JPEG image travels as one body part, introduced by
 * the `frame` boundary delimiter and a content-type header, and closed by a
 * line terminator.  No closing delimiter is ever sent.
 */
module Multipart {
  import opened Basics

  /** The bytes of an ASCII string. */
  function Ascii(s: string): (b: seq<byte>)
    requires forall i :: 0 <= i < |s| ==> s[i] as int < 128
    ensures |b| == |s| && forall i :: 0 <= i < |s| ==> b[i] == s[i] as int
  {
    seq(|s|, i requires 0 <= i < |s| => s[i] as int)
  }

  /** The boundary parameter of the response's media type. */
  const Boundary: string := "frame"

  /** The media type given to the streaming response. */
  const Mimetype: string := "multipart/x-mixed-replace; boundary=frame"

  /** Delimiter line and header block that open every body part. */
  const PartHeader: seq<byte> := Ascii("--frame\r\n") + Ascii("Content-Type: image/jpeg\r\n\r\n")

  /** The line terminator that closes every body part. */
  const Crlf: seq<byte> := Ascii("\r\n")

  /** One yielded part: header, the encoded image, line terminator. */
  function Chunk(jpeg: seq<byte>): (c: seq<byte>)
    ensures |c| == |PartHeader| + |jpeg| + |Crlf|
  {
    PartHeader + jpeg + Crlf
  }

  /** Recovers the image bytes of a part by stripping its header and terminator. */
  function Unchunk(c: seq<byte>): (r: Option<seq<byte>>)
    ensures r.Some? ==> |r.value| == |c| - |PartHeader| - |Crlf|
  {
    if |c| >= |PartHeader| + |Crlf| && c[..|PartHeader|] == PartHeader && c[|c| - |Crlf|..] == Crlf
    then Some(c[|PartHeader|..|c| - |Crlf|])
    else None
  }

  /** The header is 37 bytes and the terminator 2. */
  lemma FramingLengths()
    ensures |PartHeader| == 37 && |Crlf| == 2
    ensures Crlf == [13, 10]
  {
  }

  /** Stripping the framing of a part gives back exactly the image bytes. */
  lemma UnchunkChunk(jpeg: seq<byte>)
    ensures Unchunk(Chunk(jpeg)) == Some(jpeg)
  {
    var c := Chunk(jpeg);
    assert c[..|PartHeader|] == PartHeader;
    assert c[|c| - |Crlf|..] == Crlf;
    assert c[|PartHeader|..|c| - |Crlf|] == jpeg;
  }

  /** A byte string that unframes to some image bytes is the part of those bytes. */
  lemma ChunkUnchunk(c: seq<byte>, jpeg: seq<byte>)
    requires Unchunk(c) == Some(jpeg)
    ensures c == Chunk(jpeg)
  {
    assert c == c[..|PartHeader|] + c[|PartHeader|..|c| - |Crlf|] + c[|c| - |Crlf|..];
  }

  /**
   * The delimiter that opens every part is "--", the boundary named in the
   * media type, and a line terminator, as section 5.1.1 of RFC 2046 asks.
   */
  lemma BoundaryAgrees()
    ensures Mimetype == "multipart/x-mixed-replace; boundary=" + Boundary
    ensures PartHeader[..|Boundary| + 4] == Ascii("--" + Boundary + "\r\n")
  {
  }
}
