/**
 * The MIME-type test that decides whether a selected file is taken:
 * `selectedFile.type.startsWith('video/')` (src/App.tsx:19).
 */
module Mime {

  /** The only prefix the upload handler accepts. */
  const VideoPrefix: string := "video/"

  /**
   * JavaScript's `String.prototype.startsWith` without a position argument,
   * computed character by character; its contract is the prefix relation.
   */
  function StartsWith(s: string, prefix: string): (r: bool)
    ensures r <==> |prefix| <= |s| && s[..|prefix|] == prefix
  {
    if prefix == [] then true
    else if s == [] then false
    else
      assert |prefix| <= |s| ==> s[..|prefix|] == [s[0]] + s[1..][..|prefix| - 1];
      s[0] == prefix[0] && StartsWith(s[1..], prefix[1..])
  }

  /** The check of line 19: the declared type begins with `video/`. */
  predicate IsVideoType(mimeType: string)
  {
    StartsWith(mimeType, VideoPrefix)
  }

  /**
   * The test is on the declared type only: every type that extends the
   * prefix passes, whatever follows it, and nothing shorter than the prefix does.
   */
  lemma VideoTypeIsPrefixExtension(mimeType: string)
    ensures IsVideoType(mimeType) <==> exists rest :: mimeType == VideoPrefix + rest
  {
    if IsVideoType(mimeType) {
      assert mimeType == VideoPrefix + mimeType[|VideoPrefix|..];
    }
  }

  /** Concrete cases: a video type passes; an image type, the bare word and another case do not. */
  lemma VideoTypeExamples()
    ensures IsVideoType("video/mp4") && IsVideoType("video/")
    ensures !IsVideoType("image/jpeg") && !IsVideoType("video") && !IsVideoType("Video/mp4")
    ensures !IsVideoType("")
  {
  }
}
