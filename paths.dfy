/** The path segments of a URL: `pathname.split('/').filter(Boolean)`. */
module Paths {

  /** `s.split('/')`: the pieces between slashes, empty pieces included. */
  function Split(s: string): (r: seq<string>)
    ensures |r| >= 1
    ensures forall i :: 0 <= i < |r| ==> '/' !in r[i]
  {
    if s == [] then [""]
    else
      var rest := Split(s[1..]);
      if s[0] == '/' then [""] + rest
      else [[s[0]] + rest[0]] + rest[1..]
  }

  /** `parts.join('/')`. */
  function Join(parts: seq<string>): string {
    if |parts| == 0 then ""
    else if |parts| == 1 then parts[0]
    else parts[0] + "/" + Join(parts[1..])
  }

  /** `parts.filter(Boolean)`: the non-empty strings, in order. */
  function NonEmpty(parts: seq<string>): (r: seq<string>)
    ensures |r| <= |parts|
    ensures forall x :: x in r <==> x in parts && x != ""
  {
    if parts == [] then []
    else (if parts[0] == "" then [] else [parts[0]]) + NonEmpty(parts[1..])
  }

  /** The non-empty segments of a path; leading, trailing and doubled slashes are ignored. */
  function Segments(path: string): (r: seq<string>)
    ensures forall i :: 0 <= i < |r| ==> r[i] != "" && '/' !in r[i]
  {
    var r := NonEmpty(Split(path));
    assert forall i :: 0 <= i < |r| ==> r[i] in Split(path);
    r
  }

  /** Joining the pieces of a split gives back the string. */
  lemma {:induction false} SplitJoin(s: string)
    ensures Join(Split(s)) == s
  {
    if s != [] {
      SplitJoin(s[1..]);
      var rest := Split(s[1..]);
      if s[0] == '/' {
        assert Split(s) == [""] + rest;
        assert (Split(s))[1..] == rest;
        assert s == "" + "/" + s[1..];
      } else {
        var pieces := [[s[0]] + rest[0]] + rest[1..];
        assert Split(s) == pieces;
        if |rest| == 1 {
          assert Join(pieces) == [s[0]] + rest[0];
          assert Join(rest) == rest[0];
        } else {
          assert pieces[1..] == rest[1..];
          assert Join(rest) == rest[0] + "/" + Join(rest[1..]);
          assert Join(pieces) == [s[0]] + rest[0] + "/" + Join(rest[1..]);
        }
        assert s == [s[0]] + s[1..];
      }
    }
  }

  /** A slash-free string is split into itself. */
  lemma {:induction false} SplitSlashFree(a: string)
    requires '/' !in a
    ensures Split(a) == [a]
  {
    if a != [] {
      assert '/' !in a[1..] by {
        forall k | 0 <= k < |a[1..]| ensures a[1..][k] != '/' { assert a[1..][k] == a[k + 1]; }
      }
      SplitSlashFree(a[1..]);
      assert a == [a[0]] + a[1..];
    }
  }

  /** Splitting at the first slash: a slash-free piece, then the split of the rest. */
  lemma {:induction false} SplitCons(a: string, rest: string)
    requires '/' !in a
    ensures Split(a + "/" + rest) == [a] + Split(rest)
  {
    if a == [] {
      assert a + "/" + rest == "/" + rest;
      assert ("/" + rest)[1..] == rest;
    } else {
      assert '/' !in a[1..] by {
        forall k | 0 <= k < |a[1..]| ensures a[1..][k] != '/' { assert a[1..][k] == a[k + 1]; }
      }
      SplitCons(a[1..], rest);
      var s := a + "/" + rest;
      assert s[0] == a[0] && s[1..] == a[1..] + "/" + rest;
      assert a == [a[0]] + a[1..];
    }
  }

  /** Splitting a join of slash-free pieces gives back the pieces. */
  lemma {:induction false} JoinSplit(parts: seq<string>)
    requires |parts| >= 1
    requires forall i :: 0 <= i < |parts| ==> '/' !in parts[i]
    ensures Split(Join(parts)) == parts
  {
    if |parts| == 1 {
      SplitSlashFree(parts[0]);
    } else {
      JoinSplit(parts[1..]);
      SplitCons(parts[0], Join(parts[1..]));
      assert parts == [parts[0]] + parts[1..];
    }
  }

  /** A path written as `/` followed by slash-separated non-empty names has exactly those names as segments. */
  lemma SegmentsOfJoin(parts: seq<string>)
    requires forall i :: 0 <= i < |parts| ==> parts[i] != "" && '/' !in parts[i]
    ensures Segments("/" + Join(parts)) == parts
  {
    if parts == [] {
      assert "/" + Join(parts) == "/";
      assert Split("/") == [""] + Split("");
    } else {
      SplitCons("", Join(parts));
      JoinSplit(parts);
      assert "" + "/" + Join(parts) == "/" + Join(parts);
      NonEmptyOfNonEmpty(parts);
    }
  }

  /** Filtering distributes over concatenation: the kept strings stay in order, each as often as it occurs. */
  lemma {:induction false} NonEmptyAppend(a: seq<string>, b: seq<string>)
    ensures NonEmpty(a + b) == NonEmpty(a) + NonEmpty(b)
  {
    if a == [] {
      assert a + b == b;
    } else {
      assert (a + b)[0] == a[0] && (a + b)[1..] == a[1..] + b;
      NonEmptyAppend(a[1..], b);
    }
  }

  /**
   * The segments of any path written as slash-free pieces joined by slashes
   * are those pieces with the empty ones dropped, in order; by `SplitJoin`
   * every path is written so by its own split.
   */
  lemma SegmentsOfPieces(parts: seq<string>)
    requires |parts| >= 1
    requires forall i :: 0 <= i < |parts| ==> '/' !in parts[i]
    ensures Segments(Join(parts)) == NonEmpty(parts)
  {
    JoinSplit(parts);
  }

  /** Doubled slashes add no segment: `//in//name` has the segments `in` and `name`. */
  lemma SegmentsDoubledSlash()
    ensures Segments("//in//name") == ["in", "name"]
  {
    var parts := ["", "", "in", "", "name"];
    JoinDoubled(parts);
    assert forall i :: 0 <= i < |parts| ==> '/' !in parts[i];
    SegmentsOfPieces(parts);
    NonEmptyDoubled(parts);
  }

  lemma JoinDoubled(parts: seq<string>)
    requires parts == ["", "", "in", "", "name"]
    ensures Join(parts) == "//in//name"
  {
    assert parts[1..][1..][1..][1..] == ["name"];
    assert Join(parts[1..][1..][1..]) == "" + "/" + "name";
    assert Join(parts[1..][1..]) == "in" + "/" + "/name";
    assert Join(parts[1..]) == "" + "/" + "in//name";
    assert Join(parts) == "" + "/" + "/in//name";
  }

  lemma NonEmptyDoubled(parts: seq<string>)
    requires parts == ["", "", "in", "", "name"]
    ensures NonEmpty(parts) == ["in", "name"]
  {
    assert parts[1..][1..][1..][1..] == ["name"];
    assert NonEmpty(["name"]) == ["name"] + NonEmpty([]);
    assert NonEmpty(parts[1..][1..][1..]) == ["name"];
    assert NonEmpty(parts[1..][1..]) == ["in"] + ["name"];
    assert NonEmpty(parts[1..]) == ["in", "name"];
  }

  /** Filtering a list of non-empty strings keeps it whole. */
  lemma {:induction false} NonEmptyOfNonEmpty(parts: seq<string>)
    requires forall i :: 0 <= i < |parts| ==> parts[i] != ""
    ensures NonEmpty(parts) == parts
  {
    if parts != [] {
      NonEmptyOfNonEmpty(parts[1..]);
    }
  }

  /** A trailing slash adds no segment: `/in/name/` and `/in/name` have the same segments. */
  lemma {:induction false} SegmentsTrailingSlash(path: string)
    ensures Segments(path + "/") == Segments(path)
  {
    SplitTrailingSlash(path);
    NonEmptyAppendEmpty(Split(path));
  }

  lemma {:induction false} SplitTrailingSlash(s: string)
    ensures Split(s + "/") == Split(s) + [""]
  {
    if s == [] {
      assert s + "/" == "/";
      assert Split("/") == [""] + Split("");
    } else {
      SplitTrailingSlash(s[1..]);
      assert (s + "/")[0] == s[0] && (s + "/")[1..] == s[1..] + "/";
    }
  }

  lemma {:induction false} NonEmptyAppendEmpty(parts: seq<string>)
    ensures NonEmpty(parts + [""]) == NonEmpty(parts)
  {
    if parts == [] {
      assert parts + [""] == [""];
    } else {
      NonEmptyAppendEmpty(parts[1..]);
      assert (parts + [""])[0] == parts[0] && (parts + [""])[1..] == parts[1..] + [""];
    }
  }
}
