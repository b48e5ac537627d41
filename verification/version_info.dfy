/** `create_version_tuple` of the build's version-info generator: a dotted version
    string becomes the integer tuple PyInstaller expects, padded with a final 0,
    and that tuple is used for both the file and the product version. */
module VersionInfo {
  import opened Wrappers
  import opened PyText

  /** Number of occurrences of `c` in `s`. */
  function Count(s: string, c: char): nat {
    if |s| == 0 then 0 else (if s[0] == c then 1 else 0) + Count(s[1..], c)
  }

  /** `s.split(sep)` for a one-character separator: the pieces between separators,
      in order, empty pieces included; never an empty list. */
  function Split(s: string, sep: char): (parts: seq<string>)
    ensures |parts| == Count(s, sep) + 1
    ensures forall k :: 0 <= k < |parts| ==> sep !in parts[k]
    decreases |s|
  {
    if |s| == 0 then [""]
    else
      var rest := Split(s[1..], sep);
      if s[0] == sep then [""] + rest
      else [[s[0]] + rest[0]] + rest[1..]
  }

  /** `sep.join(parts)`. */
  function Join(parts: seq<string>, sep: char): string
    requires |parts| > 0
  {
    if |parts| == 1 then parts[0] else parts[0] + [sep] + Join(parts[1..], sep)
  }

  /** Joining the pieces of a split restores the string. */
  lemma {:induction false} JoinSplit(s: string, sep: char)
    ensures Join(Split(s, sep), sep) == s
    decreases |s|
  {
    if |s| > 0 {
      var rest := Split(s[1..], sep);
      JoinSplit(s[1..], sep);
      if s[0] == sep {
        assert Split(s, sep)[1..] == rest;
      } else {
        var parts := Split(s, sep);
        if |rest| == 1 {
          assert parts == [[s[0]] + rest[0]];
        } else {
          assert parts[1..] == rest[1..];
          assert Join(rest, sep) == rest[0] + [sep] + Join(rest[1..], sep);
        }
      }
    }
  }

  /** A piece free of separators splits to itself. */
  lemma {:induction false} SplitPiece(p: string, sep: char)
    requires sep !in p
    ensures Split(p, sep) == [p]
    decreases |p|
  {
    if |p| > 0 {
      assert forall k :: 0 <= k < |p| - 1 ==> p[1..][k] == p[k + 1];
      SplitPiece(p[1..], sep);
      assert [p[0]] + p[1..] == p;
    }
  }

  /** A piece free of separators followed by a separator splits off first. */
  lemma {:induction false} SplitFirstPiece(p: string, sep: char, tail: string)
    requires sep !in p
    ensures Split(p + [sep] + tail, sep) == [p] + Split(tail, sep)
    decreases |p|
  {
    var s := p + [sep] + tail;
    if |p| == 0 {
      assert s[1..] == tail;
    } else {
      assert s[1..] == p[1..] + [sep] + tail;
      SplitFirstPiece(p[1..], sep, tail);
      assert [p[0]] + p[1..] == p;
    }
  }

  /** Splitting a join of separator-free pieces gives the pieces back. */
  lemma {:induction false} SplitJoin(parts: seq<string>, sep: char)
    requires |parts| > 0
    requires forall k :: 0 <= k < |parts| ==> sep !in parts[k]
    ensures Split(Join(parts, sep), sep) == parts
    decreases |parts|
  {
    if |parts| == 1 {
      SplitPiece(parts[0], sep);
    } else {
      SplitJoin(parts[1..], sep);
      SplitFirstPiece(parts[0], sep, Join(parts[1..], sep));
      assert [parts[0]] + parts[1..] == parts;
    }
  }

  /** Every part is an integer literal `int()` accepts. */
  predicate AllIntegers(parts: seq<string>) {
    forall k :: 0 <= k < |parts| ==> ParseInt(parts[k]).Some?
  }

  /** `tuple(map(int, parts))`: `None` as soon as one part is not an integer
      literal, where Python raises `ValueError`. */
  function ParseAll(parts: seq<string>): (r: Option<seq<int>>)
    ensures r.Some? <==> AllIntegers(parts)
    ensures r.Some? ==> |r.value| == |parts|
    ensures r.Some? ==> forall k :: 0 <= k < |parts| ==> r.value[k] == ParseInt(parts[k]).value
    decreases |parts|
  {
    if |parts| == 0 then Some([])
    else
      match ParseInt(parts[0])
      case None => None
      case Some(x) =>
        match ParseAll(parts[1..])
        case None => None
        case Some(xs) => Some([x] + xs)
  }

  /** `create_version_tuple`: the integers of the dotted components, in order,
      followed by a 0; `None` when a component is not an integer literal. */
  function CreateVersionTuple(version: string): (r: Option<seq<int>>)
    ensures r.Some? <==> AllIntegers(Split(version, '.'))
    ensures var parts := Split(version, '.');
            r.Some? ==> && |r.value| == |parts| + 1
                        && r.value[|parts|] == 0
                        && forall k :: 0 <= k < |parts| ==> r.value[k] == ParseInt(parts[k]).value
  {
    var parsed := ParseAll(Split(version, '.'));
    if parsed.None? then None else Some(parsed.value + [0])
  }

  /** The tuple has one element per dot plus two, and ends with the padding 0. */
  lemma TupleShape(version: string)
    ensures var r := CreateVersionTuple(version);
            r.Some? ==> |r.value| == Count(version, '.') + 2 && r.value[|r.value| - 1] == 0
  {
  }

  /** The decimal renderings of a list of integers, one component each. */
  function Components(xs: seq<int>): (parts: seq<string>)
    ensures |parts| == |xs|
    ensures forall k :: 0 <= k < |xs| ==> parts[k] == IntToDecimal(xs[k])
  {
    seq(|xs|, k requires 0 <= k < |xs| => IntToDecimal(xs[k]))
  }

  /** `str(i)` never contains a dot. */
  lemma DecimalHasNoDot(i: int)
    ensures '.' !in IntToDecimal(i)
  {
  }

  /** Writing integers as a dotted version and converting it back gives those
      integers followed by the padding 0. */
  lemma VersionRoundTrip(xs: seq<int>)
    requires |xs| > 0
    requires forall k :: 0 <= k < |xs| ==> WithinStrLimit(xs[k])
    ensures CreateVersionTuple(Join(Components(xs), '.')) == Some(xs + [0])
  {
    var parts := Components(xs);
    forall k | 0 <= k < |parts|
      ensures '.' !in parts[k] && ParseInt(parts[k]) == Some(xs[k])
    {
      DecimalHasNoDot(xs[k]);
      ParseIntOfDecimal(xs[k]);
    }
    SplitJoin(parts, '.');
    var parsed := ParseAll(parts);
    assert parsed.Some?;
    assert parsed.value == xs;
  }

  /** An empty component, as in "1..2", makes the conversion fail. */
  lemma EmptyComponentFails()
    ensures CreateVersionTuple("1..2") == None
  {
  }

  /** The `FixedFileInfo` fields the generator fills in. */
  datatype FixedFileInfo = FixedFileInfo(
    filevers: seq<int>, prodvers: seq<int>,
    mask: int, flags: int, os: int, fileType: int, subtype: int, date: (int, int))

  /** The fixed-file part of the version-info text for `version`; `None` when the
      generator would stop on a malformed version. */
  function FileInfo(version: string): (r: Option<FixedFileInfo>)
    ensures r.Some? <==> CreateVersionTuple(version).Some?
    ensures r.Some? ==> r.value.filevers == r.value.prodvers == CreateVersionTuple(version).value
    ensures r.Some? ==> |r.value.filevers| == Count(version, '.') + 2
    ensures r.Some? ==> r.value.filevers[|r.value.filevers| - 1] == 0
  {
    match CreateVersionTuple(version)
    case None => None
    case Some(t) =>
      TupleShape(version);
      Some(FixedFileInfo(t, t, 0x3f, 0x0, 0x40004, 0x1, 0x0, (0, 0)))
  }
}
