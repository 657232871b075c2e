/** The new draftset's id in the `Location` header of a creation response:
    `location.rsplit("/")[-1]`, the text after the last slash. */
module Location {

  /** `s.rsplit("/")` (with no limit, the same as `s.split("/")`): the pieces
      between slashes, so one more piece than there are slashes. */
  function Split(s: string): (parts: seq<string>)
    ensures |parts| >= 1
    ensures forall i :: 0 <= i < |parts| ==> '/' !in parts[i]
  {
    if s == [] then [""]
    else
      var rest := Split(s[1..]);
      if s[0] == '/' then [""] + rest
      else [[s[0]] + rest[0]] + rest[1..]
  }

  /** `"/".join(parts)`. */
  function Join(parts: seq<string>): string
    requires |parts| >= 1
  {
    if |parts| == 1 then parts[0] else parts[0] + "/" + Join(parts[1..])
  }

  /** Splitting loses nothing: joining the pieces restores the string. */
  lemma {:induction false} JoinSplit(s: string)
    ensures Join(Split(s)) == s
  {
    if s != [] {
      var rest := Split(s[1..]);
      JoinSplit(s[1..]);
      if s[0] == '/' {
        assert Split(s) == [""] + rest;
        assert Split(s)[1..] == rest;
      } else {
        var parts := Split(s);
        assert parts[0] == [s[0]] + rest[0] && parts[1..] == rest[1..];
        if |rest| == 1 {
          assert s == [s[0]] + s[1..];
        } else {
          assert Join(rest) == rest[0] + "/" + Join(rest[1..]);
          assert s == [s[0]] + s[1..];
        }
      }
    }
  }

  /** Pieces without slashes come back from the string they join into. */
  lemma {:induction false} SplitJoin(parts: seq<string>)
    requires |parts| >= 1
    requires forall i :: 0 <= i < |parts| ==> '/' !in parts[i]
    ensures Split(Join(parts)) == parts
  {
    if |parts| == 1 {
      NoSlashIsOnePiece(parts[0]);
    } else {
      SplitJoin(parts[1..]);
      SplitAfterSlash(parts[0], Join(parts[1..]));
      assert parts == [parts[0]] + parts[1..];
    }
  }

  lemma {:induction false} NoSlashIsOnePiece(s: string)
    requires '/' !in s
    ensures Split(s) == [s]
  {
    if s != [] {
      NoSlashIsOnePiece(s[1..]);
      assert s == [s[0]] + s[1..];
    }
  }

  /** A slash-free head followed by a slash contributes one piece in front. */
  lemma {:induction false} SplitAfterSlash(head: string, tail: string)
    requires '/' !in head
    ensures Split(head + "/" + tail) == [head] + Split(tail)
  {
    if head == [] {
      assert head + "/" + tail == ['/'] + tail;
      assert (['/'] + tail)[1..] == tail;
    } else {
      var s := head + "/" + tail;
      assert s[1..] == head[1..] + "/" + tail;
      SplitAfterSlash(head[1..], tail);
      assert head == [head[0]] + head[1..];
    }
  }

  /** `location.rsplit("/")[-1]`. */
  function LastSegment(location: string): (id: string)
    ensures '/' !in id
    ensures |id| <= |location| && location[|location| - |id|..] == id
    ensures |id| < |location| ==> location[|location| - |id| - 1] == '/'
  {
    LastPieceIsSuffix(location);
    var parts := Split(location);
    parts[|parts| - 1]
  }

  /** The last piece is the text after the last slash, or the whole string. */
  lemma {:induction false} LastPieceIsSuffix(s: string)
    ensures var last := Split(s)[|Split(s)| - 1];
            |last| <= |s| && s[|s| - |last|..] == last
            && (|last| < |s| ==> s[|s| - |last| - 1] == '/')
  {
    if s != [] {
      LastPieceIsSuffix(s[1..]);
      var rest := Split(s[1..]);
      var parts := Split(s);
      if s[0] == '/' {
        assert parts == [""] + rest;
      } else {
        assert parts == [[s[0]] + rest[0]] + rest[1..];
        if |rest| == 1 {
          JoinSplit(s[1..]);
          assert parts[|parts| - 1] == [s[0]] + s[1..] == s;
        } else if |rest[|rest| - 1]| == |s| - 1 {
          assert rest[|rest| - 1] == s[1..];
          NoSlashIsOnePiece(s[1..]);
        }
      }
    }
  }

  /** Whatever precedes the final slash, the id after it is recovered: a
      header ending in `/v1/draftset/abc-123` yields `abc-123`. */
  lemma LastSegmentOfPath(prefix: string, id: string)
    requires '/' !in id
    ensures LastSegment(prefix + "/" + id) == id
  {
    var s := prefix + "/" + id;
    var seg := LastSegment(s);
    assert s[|prefix|] == '/';
    assert s[|s| - |id|..] == id;
  }
}
