/** The JPEG frame-header walk of model_scheduler/envelope_validator.py, against the marker
    segments of sections B.1.1.4 and B.2.2 of ITU-T T.81. */
module Jpeg {
  import opened BlobModel

  datatype Size = Dimensions(width: nat, height: nat) | NotJpeg | InvalidDimensions | MissingFrame

  function Big(hi: Byte, lo: Byte): (n: nat) {
    256 * (hi as nat) + lo as nat
  }

  predicate IsFrame(marker: Byte) {
    marker == 0xC0 || marker == 0xC1 || marker == 0xC2
  }

  /** Markers the walk takes for two bytes without a length. */
  predicate IsBare(marker: Byte) {
    marker == 0xD8 || marker == 0xD9 || marker < 0xC0
  }

  function Read(width: nat, height: nat): (s: Size) {
    if width < 1 || height < 1 then InvalidDimensions else Dimensions(width, height)
  }

  function Walk(data: Bytes, index: nat): (s: Size)
    decreases |data| - index
  {
    if index + 9 > |data| then MissingFrame
    else if data[index] != 0xFF then Walk(data, index + 1)
    else
      var marker := data[index + 1];
      if IsFrame(marker) then Read(Big(data[index + 7], data[index + 8]), Big(data[index + 5], data[index + 6]))
      else if IsBare(marker) then Walk(data, index + 2)
      else Walk(data, index + 2 + Big(data[index + 2], data[index + 3]))
  }

  function SizeOf(data: Bytes): (s: Size) {
    if |data| < 2 || data[0] != 0xFF || data[1] != 0xD8 then NotJpeg else Walk(data, 2)
  }

  /** `_jpeg_size`: the loop ends on every byte string. */
  method JpegSize(data: Bytes) returns (s: Size)
    ensures s == SizeOf(data)
  {
    if data[..if |data| < 2 then |data| else 2] != [0xFF, 0xD8] {
      return NotJpeg;
    }
    assert data[..2] == [0xFF, 0xD8];
    var index := 2;
    while index + 9 <= |data|
      invariant Walk(data, index) == Walk(data, 2)
      decreases |data| - index
    {
      if data[index] != 0xFF {
        index := index + 1;
        continue;
      }
      var marker := data[index + 1];
      if marker == 0xC0 || marker == 0xC1 || marker == 0xC2 {
        var height := Big(data[index + 5], data[index + 6]);
        var width := Big(data[index + 7], data[index + 8]);
        if width < 1 || height < 1 {
          return InvalidDimensions;
        }
        return Dimensions(width, height);
      }
      if marker == 0xD8 || marker == 0xD9 || marker < 0xC0 {
        index := index + 2;
        continue;
      }
      index := index + 2 + Big(data[index + 2], data[index + 3]);
    }
    s := MissingFrame;
  }

  // ---- streams ------------------------------------------------------------------------------------

  /** What may stand before the frame header: a marker segment with its own length and any payload, a
      marker the walk knows to be bare, a stray byte, or a marker with the impossible length 0 or 1,
      of which the walk takes two or three bytes and then reads the length bytes left over again. */
  datatype Segment =
    | Sized(marker: Byte, payload: Bytes)
    | Bare(marker: Byte)
    | Stray(b: Byte)
    | Short(marker: Byte, length: nat)

  predicate IsSegment(s: Segment) {
    match s
    case Sized(marker, payload) => !IsFrame(marker) && !IsBare(marker) && |payload| + 2 < 65536
    case Bare(marker) => IsBare(marker)
    case Stray(b) => b != 0xFF
    case Short(marker, length) => !IsFrame(marker) && !IsBare(marker) && length < 2
  }

  function Hi(n: nat): (b: Byte)
    requires n < 65536
  {
    (n / 256) as Byte
  }

  function Lo(n: nat): (b: Byte)
    requires n < 65536
  {
    (n % 256) as Byte
  }

  function Encode(s: Segment): (bytes: Bytes)
    requires IsSegment(s)
  {
    match s
    case Sized(marker, payload) => [0xFF, marker, Hi(|payload| + 2), Lo(|payload| + 2)] + payload
    case Bare(marker) => [0xFF, marker]
    case Stray(b) => [b]
    case Short(marker, length) => if length == 0 then [0xFF, marker] else [0xFF, marker, 0]
  }

  datatype Segments = End | More(first: Segment, rest: Segments)

  /** The length bytes that a short segment leaves over come next. */
  predicate LeftOver(length: nat, rest: Segments) {
    if length == 0 then rest.More? && rest.first == Stray(0) && rest.rest.More? && rest.rest.first == Stray(0)
    else rest.More? && rest.first == Stray(1)
  }

  predicate AreSegments(ss: Segments) {
    ss.More? ==> IsSegment(ss.first) && AreSegments(ss.rest) && (ss.first.Short? ==> LeftOver(ss.first.length, ss.rest))
  }

  function EncodeAll(ss: Segments): (bytes: Bytes)
    requires AreSegments(ss)
  {
    if ss.End? then [] else Encode(ss.first) + EncodeAll(ss.rest)
  }

  datatype Frame = Frame(marker: Byte, length: nat, precision: Byte, height: nat, width: nat)

  predicate IsFrameHeader(f: Frame) {
    IsFrame(f.marker) && f.length < 65536 && f.height < 65536 && f.width < 65536
  }

  function EncodeFrame(f: Frame): (bytes: Bytes)
    requires IsFrameHeader(f)
  {
    [0xFF, f.marker, Hi(f.length), Lo(f.length), f.precision, Hi(f.height), Lo(f.height), Hi(f.width), Lo(f.width)]
  }

  lemma BigHiLo(n: nat)
    requires n < 65536
    ensures Big(Hi(n), Lo(n)) == n
  {
  }

  /** The walk steps over one segment, whatever bytes its payload holds. */
  lemma StepsOver(data: Bytes, at: nat, s: Segment)
    requires IsSegment(s) && at + |Encode(s)| + 9 <= |data|
    requires data[at..at + |Encode(s)|] == Encode(s)
    requires s.Short? ==> Big(data[at + 2], data[at + 3]) == s.length
    ensures Walk(data, at) == Walk(data, at + |Encode(s)|)
  {
    var piece := data[at..at + |Encode(s)|];
    assert data[at] == piece[0];
    if !s.Stray? { assert data[at + 1] == piece[1]; }
    if s.Sized? {
      assert data[at + 2] == piece[2] && data[at + 3] == piece[3];
      BigHiLo(|s.payload| + 2);
    }
  }

  lemma SplitSlice(data: Bytes, at: nat, head: Bytes, rest: Bytes)
    requires at + |head| + |rest| <= |data| && data[at..at + |head| + |rest|] == head + rest
    ensures data[at..at + |head|] == head && data[at + |head|..at + |head| + |rest|] == rest
  {
    var piece := data[at..at + |head| + |rest|];
    assert data[at..at + |head|] == piece[..|head|];
    assert data[at + |head|..at + |head| + |rest|] == piece[|head|..];
  }

  lemma {:induction false} StepsOverAll(data: Bytes, at: nat, ss: Segments)
    requires AreSegments(ss) && at + |EncodeAll(ss)| + 9 <= |data|
    requires data[at..at + |EncodeAll(ss)|] == EncodeAll(ss)
    ensures Walk(data, at) == Walk(data, at + |EncodeAll(ss)|)
    decreases ss
  {
    if ss.End? {
      assert EncodeAll(ss) == [];
    } else {
      hide *;
      Unfolds(ss);
      StepsOverFirst(data, at, ss);
      StepsOverAll(data, at + |Encode(ss.first)|, ss.rest);
    }
  }

  lemma StepsOverFirst(data: Bytes, at: nat, ss: Segments)
    requires AreSegments(ss) && ss.More? && at + |EncodeAll(ss)| + 9 <= |data|
    requires data[at..at + |EncodeAll(ss)|] == EncodeAll(ss)
    ensures var next, rest := at + |Encode(ss.first)|, EncodeAll(ss.rest);
            && at + |EncodeAll(ss)| == next + |rest| && data[next..next + |rest|] == rest
            && Walk(data, at) == Walk(data, next)
  {
    hide *;
    Unfolds(ss);
    if ss.first.Short? { ReadsShort(data, at, ss); }
    SplitSlice(data, at, Encode(ss.first), EncodeAll(ss.rest));
    StepsOver(data, at, ss.first);
  }

  lemma Unfolds(ss: Segments)
    requires AreSegments(ss) && ss.More?
    ensures IsSegment(ss.first) && AreSegments(ss.rest) && EncodeAll(ss) == Encode(ss.first) + EncodeAll(ss.rest)
  {
  }

  lemma ReadsShort(data: Bytes, at: nat, ss: Segments)
    requires AreSegments(ss) && ss.More? && ss.first.Short? && at + |EncodeAll(ss)| + 9 <= |data|
    requires data[at..at + |EncodeAll(ss)|] == EncodeAll(ss)
    ensures Big(data[at + 2], data[at + 3]) == ss.first.length
  {
    var piece := data[at..at + |EncodeAll(ss)|];
    var rest := EncodeAll(ss.rest);
    assert AreSegments(ss.rest) && AreSegments(ss.rest.rest);
    if ss.first.length == 0 {
      assert AreSegments(ss.rest.rest.rest);
      assert rest == [0] + ([0] + EncodeAll(ss.rest.rest.rest));
      assert piece[2] == rest[0] && piece[3] == rest[1];
    } else {
      assert rest == [1] + EncodeAll(ss.rest.rest);
      assert piece[2] == 0 && piece[3] == rest[0];
    }
    assert data[at + 2] == piece[2] && data[at + 3] == piece[3];
  }

  /** For any list of such segments followed by a SOF0, SOF1 or SOF2 header, and anything after it,
      the walk answers with exactly that header's dimensions, and with an error exactly when one of
      them is zero. */
  lemma FindsTheFrame(ss: Segments, f: Frame, rest: Bytes)
    requires AreSegments(ss) && IsFrameHeader(f)
    ensures SizeOf([0xFF, 0xD8] + EncodeAll(ss) + EncodeFrame(f) + rest)
         == if f.width > 0 && f.height > 0 then Dimensions(f.width, f.height) else InvalidDimensions
  {
    hide EncodeAll, Walk, AreSegments;
    var start: Bytes := [0xFF, 0xD8];
    var middle, frame := EncodeAll(ss), EncodeFrame(f);
    var data := start + middle + frame + rest;
    assert |frame| == 9 && data[0] == 0xFF && data[1] == 0xD8;
    hide EncodeFrame;
    Slices(start, middle, frame, rest);
    StepsOverAll(data, 2, ss);
    ReadsFrame(data, 2 + |middle|, f);
  }

  lemma Slices(a: Bytes, b: Bytes, c: Bytes, d: Bytes)
    ensures (a + b + c + d)[..|a|] == a
    ensures (a + b + c + d)[|a|..|a| + |b|] == b
    ensures (a + b + c + d)[|a| + |b|..|a| + |b| + |c|] == c
  {
  }

  lemma ReadsFrame(data: Bytes, at: nat, f: Frame)
    requires IsFrameHeader(f) && at + 9 <= |data| && data[at..at + 9] == EncodeFrame(f)
    ensures Walk(data, at) == Read(f.width, f.height)
  {
    var piece := data[at..at + 9];
    assert data[at] == piece[0] && data[at + 1] == piece[1];
    assert data[at + 5] == piece[5] && data[at + 6] == piece[6] && data[at + 7] == piece[7] && data[at + 8] == piece[8];
    BigHiLo(f.height);
    BigHiLo(f.width);
  }

  // ---- every answer is a header found this way ------------------------------------------------

  /** The stream from `at` on: segments, a frame header, and anything after it. */
  predicate LaidOut(data: Bytes, at: nat, ss: Segments, f: Frame, rest: Bytes) {
    AreSegments(ss) && IsFrameHeader(f) && at <= |data| && data[at..] == EncodeAll(ss) + EncodeFrame(f) + rest
  }

  lemma HiLoBig(hi: Byte, lo: Byte)
    ensures Big(hi, lo) < 65536 && Hi(Big(hi, lo)) == hi && Lo(Big(hi, lo)) == lo
  {
  }

  lemma FrameAt(data: Bytes, at: nat) returns (f: Frame)
    requires at + 9 <= |data| && data[at] == 0xFF && IsFrame(data[at + 1])
    ensures LaidOut(data, at, End, f, data[at + 9..]) && Walk(data, at) == Read(f.width, f.height)
  {
    f := Frame(data[at + 1], Big(data[at + 2], data[at + 3]), data[at + 4], Big(data[at + 5], data[at + 6]),
               Big(data[at + 7], data[at + 8]));
    HiLoBig(data[at + 2], data[at + 3]);
    HiLoBig(data[at + 5], data[at + 6]);
    HiLoBig(data[at + 7], data[at + 8]);
    hide Walk, Hi, Lo, Big;
    HeaderBytes(data, at, f);
    ReadsFrame(data, at, f);
    hide EncodeFrame;
    NothingBefore(data, at, f);
  }

  lemma HeaderBytes(data: Bytes, at: nat, f: Frame)
    requires at + 9 <= |data| && IsFrameHeader(f) && data[at] == 0xFF && data[at + 1] == f.marker
    requires data[at + 4] == f.precision
    requires data[at + 2] == Hi(f.length) && data[at + 3] == Lo(f.length) && data[at + 5] == Hi(f.height)
    requires data[at + 6] == Lo(f.height)
    requires data[at + 7] == Hi(f.width) && data[at + 8] == Lo(f.width)
    ensures data[at..at + 9] == EncodeFrame(f)
  {
    hide Hi, Lo;
  }

  lemma NothingBefore(data: Bytes, at: nat, f: Frame)
    requires at + 9 <= |data| && IsFrameHeader(f) && data[at..at + 9] == EncodeFrame(f)
    ensures LaidOut(data, at, End, f, data[at + 9..])
  {
    hide EncodeFrame;
    assert data[at..] == data[at..at + 9] + data[at + 9..];
    assert [] + EncodeFrame(f) == EncodeFrame(f);
  }

  /** This segment stands at `at`, with at least a header's length behind it. */
  predicate Stands(data: Bytes, at: nat, s: Segment) {
    && IsSegment(s) && at + |Encode(s)| + 9 <= |data| && |Encode(s)| > 0 && data[at..at + |Encode(s)|] == Encode(s)
    && (s.Short? ==> Big(data[at + 2], data[at + 3]) == s.length)
  }

  /** The segment the walk takes at a place where it goes on. */
  lemma SegmentAt(data: Bytes, at: nat) returns (s: Segment)
    requires at + 9 <= |data| && !(data[at] == 0xFF && IsFrame(data[at + 1])) && !Walk(data, at).MissingFrame?
    ensures Stands(data, at, s) && Walk(data, at) == Walk(data, at + |Encode(s)|)
  {
    var marker, length := data[at + 1], Big(data[at + 2], data[at + 3]);
    OneStep(data, at);
    hide Walk, Big, Hi, Lo, Stands, Encode;
    if data[at] != 0xFF {
      s := Stray(data[at]);
      StrayAt(data, at);
    } else if IsBare(marker) {
      s := Bare(marker);
      BareAt(data, at);
    } else if length < 2 {
      s := Short(marker, length);
      ShortAt(data, at, length);
    } else {
      s := SizedAt(data, at, length);
    }
  }

  lemma StrayAt(data: Bytes, at: nat)
    requires at + 10 <= |data| && data[at] != 0xFF
    ensures Stands(data, at, Stray(data[at])) && |Encode(Stray(data[at]))| == 1
  {
  }

  lemma BareAt(data: Bytes, at: nat)
    requires at + 11 <= |data| && data[at] == 0xFF && IsBare(data[at + 1])
    ensures Stands(data, at, Bare(data[at + 1])) && |Encode(Bare(data[at + 1]))| == 2
  {
  }

  lemma OneStep(data: Bytes, at: nat)
    requires at + 9 <= |data| && !(data[at] == 0xFF && IsFrame(data[at + 1])) && !Walk(data, at).MissingFrame?
    ensures var next := if data[at] != 0xFF then at + 1 else if IsBare(data[at + 1]) then at + 2
            else at + 2 + Big(data[at + 2], data[at + 3]);
            next + 9 <= |data| && Walk(data, at) == Walk(data, next)
  {
  }

  lemma ShortAt(data: Bytes, at: nat, length: nat)
    requires at + 2 + length + 9 <= |data| && length == Big(data[at + 2], data[at + 3]) < 2
    requires data[at] == 0xFF && !IsFrame(data[at + 1]) && !IsBare(data[at + 1])
    ensures Stands(data, at, Short(data[at + 1], length)) && |Encode(Short(data[at + 1], length))| == length + 2
  {
    assert data[at + 2] == 0;
    hide Big;
    if length == 0 {
      assert data[at..at + 2] == [0xFF, data[at + 1]];
    } else {
      assert data[at..at + 3] == [0xFF, data[at + 1], 0];
    }
  }

  lemma SizedAt(data: Bytes, at: nat, length: nat) returns (s: Segment)
    requires at + 2 + length + 9 <= |data| && length == Big(data[at + 2], data[at + 3]) >= 2
    requires data[at] == 0xFF && !IsFrame(data[at + 1]) && !IsBare(data[at + 1])
    ensures Stands(data, at, s) && |Encode(s)| == length + 2
  {
    HiLoBig(data[at + 2], data[at + 3]);
    hide Big, Hi, Lo;
    s := Sized(data[at + 1], data[at + 4..at + 2 + length]);
    assert data[at..at + length + 2] == data[at..at + 4] + data[at + 4..at + 2 + length];
    assert data[at..at + 4] == [0xFF, data[at + 1], data[at + 2], data[at + 3]];
  }

  /** After a short segment the walk reads its length bytes as stray ones. */
  lemma LeftOverComesNext(data: Bytes, at: nat, length: nat, ss: Segments, f: Frame, rest: Bytes)
    requires length < 2 && at + 9 <= |data| && LaidOut(data, at, ss, f, rest)
    requires if length == 0 then data[at] == 0 && data[at + 1] == 0 else data[at] == 1
    ensures LeftOver(length, ss)
  {
    var all := EncodeAll(ss) + EncodeFrame(f) + rest;
    assert data[at] == all[0] && data[at + 1] == all[1];
    StartsStray(ss, f, rest);
    if length == 0 {
      assert EncodeAll(ss) == [0] + EncodeAll(ss.rest);
      assert all[1..] == EncodeAll(ss.rest) + EncodeFrame(f) + rest;
      StartsStray(ss.rest, f, rest);
    }
  }

  lemma StartsStray(ss: Segments, f: Frame, rest: Bytes)
    requires AreSegments(ss) && IsFrameHeader(f)
    ensures var all := EncodeAll(ss) + EncodeFrame(f) + rest;
            |all| > 0 && (all[0] != 0xFF ==> ss.More? && ss.first == Stray(all[0]))
  {
    if ss.More? { assert EncodeAll(ss)[0] == Encode(ss.first)[0]; }
  }

  lemma {:induction false} Decompose(data: Bytes, at: nat) returns (ss: Segments, f: Frame, rest: Bytes)
    requires !Walk(data, at).MissingFrame?
    ensures LaidOut(data, at, ss, f, rest) && Walk(data, at) == Read(f.width, f.height)
    decreases |data| - at
  {
    NeedsNine(data, at);
    hide Walk, LaidOut, Stands, Encode;
    if data[at] == 0xFF && IsFrame(data[at + 1]) {
      f := FrameAt(data, at);
      ss, rest := End, data[at + 9..];
    } else {
      var s := SegmentAt(data, at);
      Takes(data, at, s);
      var tail;
      tail, f, rest := Decompose(data, at + |Encode(s)|);
      ss := More(s, tail);
      Extends(data, at, s, tail, f, rest);
    }
  }

  lemma NeedsNine(data: Bytes, at: nat)
    requires !Walk(data, at).MissingFrame?
    ensures at + 9 <= |data|
  {
  }

  lemma Takes(data: Bytes, at: nat, s: Segment)
    requires Stands(data, at, s)
    ensures IsSegment(s) && at < at + |Encode(s)| <= |data|
  {
    hide Encode;
  }

  lemma Extends(data: Bytes, at: nat, s: Segment, tail: Segments, f: Frame, rest: Bytes)
    requires Stands(data, at, s) && LaidOut(data, at + |Encode(s)|, tail, f, rest)
    ensures LaidOut(data, at, More(s, tail), f, rest)
  {
    hide LaidOut, Encode, Big;
    if s.Short? {
      ZeroAndLength(data, at, s.length);
      ShortTakes(s);
      LeftOverComesNext(data, at + 2 + s.length, s.length, tail, f, rest);
    }
    Prepends(data, at, s, tail, f, rest);
  }

  lemma ShortTakes(s: Segment)
    requires IsSegment(s) && s.Short?
    ensures |Encode(s)| == 2 + s.length
  {
  }

  lemma ZeroAndLength(data: Bytes, at: nat, length: nat)
    requires at + 9 <= |data| && length == Big(data[at + 2], data[at + 3]) < 2
    ensures data[at + 2] == 0 && data[at + 3] as nat == length
  {
  }

  lemma Prepends(data: Bytes, at: nat, s: Segment, tail: Segments, f: Frame, rest: Bytes)
    requires IsSegment(s) && at + |Encode(s)| <= |data| && data[at..at + |Encode(s)|] == Encode(s)
    requires LaidOut(data, at + |Encode(s)|, tail, f, rest) && (s.Short? ==> LeftOver(s.length, tail))
    ensures LaidOut(data, at, More(s, tail), f, rest)
  {
    var n := |Encode(s)|;
    assert data[at..] == data[at..at + n] + data[at + n..];
    assert Encode(s) + (EncodeAll(tail) + EncodeFrame(f) + rest)
        == (Encode(s) + EncodeAll(tail)) + EncodeFrame(f) + rest;
    hide Encode, EncodeFrame;
  }

  /** Exactly then: a byte string has these dimensions for the walk if and only if it is the start
      marker, segments, a frame header with these dimensions, and anything after it. */
  lemma FoundIffLaidOut(data: Bytes, width: nat, height: nat)
    requires width > 0 && height > 0
    ensures SizeOf(data) == Dimensions(width, height) <==>
              && |data| >= 2 && data[0] == 0xFF && data[1] == 0xD8
              && exists ss, f, rest :: LaidOut(data, 2, ss, f, rest) && f.width == width && f.height == height
  {
    if SizeOf(data) == Dimensions(width, height) {
      var ss, f, rest := Decompose(data, 2);
      assert LaidOut(data, 2, ss, f, rest) && f.width == width && f.height == height;
    }
    if |data| >= 2 && data[0] == 0xFF && data[1] == 0xD8 {
      forall ss, f, rest | LaidOut(data, 2, ss, f, rest) && f.width == width && f.height == height
        ensures SizeOf(data) == Dimensions(width, height)
      {
        hide Walk, EncodeAll, EncodeFrame;
        FindsTheFrame(ss, f, rest);
        assert data == [0xFF, 0xD8] + data[2..];
        assert [0xFF, 0xD8] + (EncodeAll(ss) + EncodeFrame(f) + rest)
            == [0xFF, 0xD8] + EncodeAll(ss) + EncodeFrame(f) + rest;
      }
    }
  }

  // ---- what hides a header ----------------------------------------------------------------------

  /** Two bytes that start no segment the walk knows stand where the frame header should: the walk
      takes the bytes after them for a length and goes on behind that. */
  lemma Overshoots(ss: Segments, first: Byte, frame: Bytes, rest: Bytes)
    requires AreSegments(ss) && !IsFrame(first) && !IsBare(first) && |frame| >= 8
    ensures var data: Bytes := [0xFF, 0xD8] + EncodeAll(ss) + ([0xFF, first] + frame) + rest;
            var at := 2 + |EncodeAll(ss)|;
            && SizeOf(data) == Walk(data, at + 2 + Big(frame[0], frame[1]))
            && (|frame| + |rest| < Big(frame[0], frame[1]) + 9 ==> SizeOf(data) == MissingFrame)
  {
    hide EncodeAll, AreSegments, Walk, Big;
    var start: Bytes := [0xFF, 0xD8];
    var middle, piece := EncodeAll(ss), [0xFF, first] + frame;
    Slices(start, middle, piece, rest);
    SkipsTo(start + middle + piece + rest, ss, piece);
  }

  lemma SkipsTo(data: Bytes, ss: Segments, piece: Bytes)
    requires AreSegments(ss) && |piece| >= 9 && 2 + |EncodeAll(ss)| + |piece| <= |data| && data[..2] == [0xFF, 0xD8]
    requires data[2..2 + |EncodeAll(ss)|] == EncodeAll(ss)
    requires data[2 + |EncodeAll(ss)|..2 + |EncodeAll(ss)| + |piece|] == piece
    requires piece[0] == 0xFF && !IsFrame(piece[1]) && !IsBare(piece[1])
    ensures var next := 2 + |EncodeAll(ss)| + 2 + Big(piece[2], piece[3]);
            SizeOf(data) == Walk(data, next) && (|data| < next + 9 ==> SizeOf(data) == MissingFrame)
  {
    hide EncodeAll, AreSegments, Walk, Big;
    assert data[0] == data[..2][0] && data[1] == data[..2][1];
    StepsOverAll(data, 2, ss);
    GoesOnBehind(data, 2 + |EncodeAll(ss)|, piece);
  }

  lemma GoesOnBehind(data: Bytes, at: nat, piece: Bytes)
    requires |piece| >= 9 && at + |piece| <= |data| && data[at..at + |piece|] == piece
    requires piece[0] == 0xFF && !IsFrame(piece[1]) && !IsBare(piece[1])
    ensures var next := at + 2 + Big(piece[2], piece[3]);
            Walk(data, at) == Walk(data, next) && (|data| < next + 9 ==> Walk(data, at) == MissingFrame)
  {
    var slice := data[at..at + |piece|];
    assert data[at] == slice[0] && data[at + 1] == slice[1] && data[at + 2] == slice[2] && data[at + 3] == slice[3];
  }

  /** A fill byte before the frame marker, which T.81 allows, hides the header: the walk reads it as
      a marker of its own, takes the frame marker and the next byte for its length, and goes on
      behind that, which for less than 48 KiB of further data is the end. */
  lemma FillByteHidesFrame(ss: Segments, f: Frame, rest: Bytes)
    requires AreSegments(ss) && IsFrameHeader(f)
    ensures var data: Bytes := [0xFF, 0xD8] + EncodeAll(ss) + ([0xFF] + EncodeFrame(f)) + rest;
            && SizeOf(data) == Walk(data, 2 + |EncodeAll(ss)| + 2 + Big(f.marker, Hi(f.length)))
            && (|rest| < 49152 ==> SizeOf(data) == MissingFrame)
  {
    hide EncodeAll, AreSegments, Walk, EncodeFrame, Big, Hi;
    var frame := FilledFrame(f);
    Overshoots(ss, 0xFF, frame, rest);
  }

  lemma FilledFrame(f: Frame) returns (frame: Bytes)
    requires IsFrameHeader(f)
    ensures [0xFF, 0xFF] + frame == [0xFF] + EncodeFrame(f) && |frame| == 8 && frame[0] == f.marker
    ensures frame[1] == Hi(f.length)
    ensures Big(f.marker, Hi(f.length)) >= 49152
  {
    frame := EncodeFrame(f)[1..];
  }

  /** So does a restart marker, which T.81 defines without a length and the walk reads with one. */
  lemma RestartHidesFrame(ss: Segments, restart: Byte, f: Frame, rest: Bytes)
    requires AreSegments(ss) && IsFrameHeader(f) && 0xD0 <= restart <= 0xD7
    ensures var data: Bytes := [0xFF, 0xD8] + EncodeAll(ss) + ([0xFF, restart] + EncodeFrame(f)) + rest;
            && SizeOf(data) == Walk(data, 2 + |EncodeAll(ss)| + 2 + Big(0xFF, f.marker))
            && (|rest| < 65280 ==> SizeOf(data) == MissingFrame)
  {
    assert Big(0xFF, f.marker) >= 65280 + 192 && |EncodeFrame(f)| == 9 && EncodeFrame(f)[0] == 0xFF
           && EncodeFrame(f)[1] == f.marker;
    hide EncodeAll, AreSegments, Walk, EncodeFrame, Big;
    Overshoots(ss, restart, EncodeFrame(f), rest);
  }
}
