/**
 * Loaded files are listed as `"<sampling type>: <file id>"` labels; the
 * pages recover the file id from a label by taking what follows the last
 * colon and stripping it.
 */
module FileLabels {
  import opened Text

  /** `'{}: {}'.format(sampling_type, file_id)`. */
  function Label(samplingType: String, fileId: String): String {
    samplingType + ": " + fileId
  }

  /** `string.split(':')[-1].strip()`. */
  function FileIdOf(s: String): (r: String)
    ensures |r| <= |s|
  {
    var pieces := Split(s, ':');
    var last := pieces[|pieces| - 1];
    assert |last| <= |s| by { SplitPieceLength(s, ':', |pieces| - 1); }
    Strip(last)
  }

  /** A file id holds no colon and has no white space at either end. */
  lemma FileIdOfClean(s: String)
    ensures ':' !in FileIdOf(s) && NoEdgeSpace(FileIdOf(s))
  {
    var pieces := Split(s, ':');
    assert ':' !in pieces[|pieces| - 1];
    StripFacts(pieces[|pieces| - 1]);
    if ':' in FileIdOf(s) {
      StripChars(pieces[|pieces| - 1], ':');
    }
  }

  /** The file id is the stripped last piece of the split. */
  lemma FileIdOfLastPiece(s: String, last: String)
    requires Split(s, ':')[|Split(s, ':')| - 1] == last
    ensures FileIdOf(s) == Strip(last)
  {
  }

  /** No piece of a split is longer than the string split. */
  lemma {:induction false} SplitPieceLength(s: String, sep: char, i: nat)
    requires i < |Split(s, sep)|
    ensures |Split(s, sep)[i]| <= |s|
  {
    if s != [] {
      var rest := Split(s[1..], sep);
      if s[0] == sep {
        if i > 0 { SplitPieceLength(s[1..], sep, i - 1); }
      } else if i == 0 {
        SplitPieceLength(s[1..], sep, 0);
      } else {
        SplitPieceLength(s[1..], sep, i);
      }
    }
  }

  /**
   * The id is recovered from its label whenever it holds no colon and no
   * white space at either end; the sampling type may be anything,
   * colons included.
   */
  lemma FileIdOfLabel(samplingType: String, fileId: String)
    requires ':' !in fileId && NoEdgeSpace(fileId)
    ensures FileIdOf(Label(samplingType, fileId)) == fileId
  {
    var tail := " " + fileId;
    var shown := Label(samplingType, fileId);
    assert shown == samplingType + [':'] + tail;
    assert ':' !in tail by { assert forall k :: 0 <= k < |fileId| ==> tail[k + 1] == fileId[k]; }
    LastPieceAfterSeparator(samplingType, tail, ':');
    assert AllSpace(" ") by { assert IsSpace(' '); }
    StripPadded(" ", fileId);
    FileIdOfLastPiece(shown, tail);
  }

  /**
   * An id that holds a colon is cut at its last colon: only what follows
   * it comes back (`"a: b:c"` gives `"c"`).
   */
  lemma FileIdOfColonId(samplingType: String, before: String, after: String)
    requires ':' !in after && NoEdgeSpace(after)
    ensures FileIdOf(Label(samplingType, before + [':'] + after)) == after
  {
    var prefix := samplingType + ": ";
    var head := prefix + before;
    AppendAssociative(prefix, before, [':']);
    AppendAssociative(prefix, before + [':'], after);
    var shown := Label(samplingType, before + [':'] + after);
    assert shown == head + [':'] + after;
    LastPieceAfterSeparator(head, after, ':');
    FileIdOfLastPiece(shown, after);
    StripClean(after);
  }
}
