/**
 Annex B byte streams (annexb.py): start-code search, incremental NAL splitting, and
 grouping into access units. The whole-stream meaning is `Cut`; the incremental loop
 is proved to agree with it for every schedule of reads.
 */
module AnnexB {
  import opened Bytes

  // -------------------------------------------------------------- start codes

  /** Length of the start code at `i` (ITU-T H.264 Annex B, section B.1), or 0. */
  function CodeAt(d: seq<byte>, i: int): (n: nat)
    ensures n in {0, 3, 4} && (n > 0 ==> 0 <= i && i + n <= |d|)
  {
    if 0 <= i && i + 2 < |d| && d[i] == 0 && d[i + 1] == 0 then
      if i + 3 < |d| && d[i + 2] == 0 && d[i + 3] == 1 then 4
      else if d[i + 2] == 1 then 3 else 0
    else 0
  }

  /** Leftmost start code at or after `i`; `|d|` when there is none. */
  function First(d: seq<byte>, i: nat): (r: nat)
    requires i <= |d|
    ensures i <= r <= |d| && (r < |d| ==> CodeAt(d, r) > 0)
    decreases |d| - i
  {
    if i == |d| || CodeAt(d, i) > 0 then i else First(d, i + 1)
  }

  datatype Search = NotFound | Found(at: nat, length: nat)

  ghost predicate NoCode(d: seq<byte>, i: nat, r: nat) {
    forall j :: i <= j < r ==> CodeAt(d, j) == 0
  }

  lemma {:induction false} FirstSkips(d: seq<byte>, i: nat)
    requires i <= |d|
    ensures NoCode(d, i, First(d, i))
    decreases |d| - i
  {
    if i < |d| && CodeAt(d, i) == 0 { FirstSkips(d, i + 1); }
  }

  lemma {:induction false} FirstUnique(d: seq<byte>, i: nat, r: nat)
    requires i <= r <= |d| && (r < |d| ==> CodeAt(d, r) > 0) && NoCode(d, i, r)
    ensures First(d, i) == r
    decreases r - i
  {
    if i < r {
      assert CodeAt(d, i) == 0;
      FirstUnique(d, i + 1, r);
    }
  }

  method FindStartCode(data: seq<byte>, start: int) returns (r: Search)
    ensures var i := if start < 0 then 0 else start;
            if i >= |data| || First(data, i) == |data| then r == NotFound
            else r == Found(First(data, i), CodeAt(data, First(data, i)))
  {
    var limit := |data| - 2;
    var i := if start < 0 then 0 else start;
    ghost var from := i;
    while i < limit
      invariant from <= i && (from < |data| ==> i <= |data|)
      invariant NoCode(data, from, i)
    {
      if data[i] == 0 && data[i + 1] == 0 {
        if i + 3 < |data| && data[i + 2] == 0 && data[i + 3] == 1 {
          FirstUnique(data, from, i);
          return Found(i, 4);
        }
        if data[i + 2] == 1 {
          FirstUnique(data, from, i);
          return Found(i, 3);
        }
      }
      i := i + 1;
    }
    if from < |data| { FirstUnique(data, from, |data|); }
    return NotFound;
  }

  // ------------------------------------------------- the whole-stream meaning

  /** All pieces of a stream that begins with a start code, one per start code. */
  function Cut(d: seq<byte>): (pieces: seq<seq<byte>>)
    requires CodeAt(d, 0) > 0
    decreases |d|
  {
    var n := First(d, CodeAt(d, 0));
    if n == |d| then [d] else [d[..n]] + Cut(d[n..])
  }

  /** A piece is a NAL unit when something follows its start code. */
  function Kept(pieces: seq<seq<byte>>): seq<seq<byte>> {
    if pieces == [] then []
    else (if |pieces[0]| > CodeAt(pieces[0], 0) then [pieces[0]] else []) + Kept(pieces[1..])
  }

  datatype NalResult = Nals(nals: seq<seq<byte>>) | NoStartCode | ChunkTooSmall

  /** The stream from its first start code on; empty when it has none. */
  function Tail(d: seq<byte>): (t: seq<byte>)
    ensures t != [] ==> CodeAt(t, 0) > 0
  {
    ShiftCode(d, First(d, 0), 0);
    d[First(d, 0)..]
  }

  function NalsOf(tail: seq<byte>): seq<seq<byte>>
    requires CodeAt(tail, 0) > 0
  {
    Kept(Cut(tail))
  }

  function StreamNals(d: seq<byte>): NalResult {
    if d == [] then Nals([])
    else if Tail(d) == [] then NoStartCode
    else Nals(NalsOf(Tail(d)))
  }

  lemma ShiftCode(d: seq<byte>, k: nat, j: nat)
    requires k <= |d|
    ensures CodeAt(d[k..], j) == CodeAt(d, k + j)
  {
  }

  /** More bytes never change a start code that is already there. */
  lemma PrefixCode(x: seq<byte>, y: seq<byte>, i: nat)
    ensures CodeAt(x, i) > 0 ==> CodeAt(x + y, i) == CodeAt(x, i)
    ensures i + 4 <= |x| ==> CodeAt(x + y, i) == CodeAt(x, i)
  {
  }

  lemma PrefixFirst(x: seq<byte>, y: seq<byte>, i: nat)
    requires i <= |x| && First(x, i) < |x|
    ensures First(x + y, i) == First(x, i)
  {
    var r := First(x, i);
    FirstSkips(x, i);
    PrefixCode(x, y, r);
    forall j | i <= j < r ensures CodeAt(x + y, j) == 0 { PrefixCode(x, y, j); }
    FirstUnique(x + y, i, r);
  }

  /** The last four bytes are all that a straddling start code can need. */
  lemma TrimKeepsFirst(x: seq<byte>, y: seq<byte>)
    requires |x| > 4 && First(x, 0) == |x|
    ensures First(x + y, 0) == |x| - 4 + First(x[|x| - 4..] + y, 0)
  {
    var t := |x| - 4;
    var z := x[t..] + y;
    assert z == (x + y)[t..];
    var r := First(z, 0);
    FirstSkips(x, 0);
    FirstSkips(z, 0);
    forall j | 0 <= j < t + r ensures CodeAt(x + y, j) == 0 {
      if j < t { PrefixCode(x, y, j); } else { ShiftCode(x + y, t, j - t); }
    }
    ShiftCode(x + y, t, r);
    FirstUnique(x + y, 0, t + r);
  }

  /** A start code already followed by another one closes its piece for good. */
  lemma CutSplits(x: seq<byte>, y: seq<byte>)
    requires CodeAt(x, 0) > 0 && First(x, CodeAt(x, 0)) < |x|
    ensures CodeAt(x + y, 0) > 0
    ensures var n := First(x, CodeAt(x, 0));
            CodeAt(x[n..], 0) > 0 && CodeAt(x[n..] + y, 0) > 0
            && Cut(x + y) == [x[..n]] + Cut(x[n..] + y)
  {
    var n := First(x, CodeAt(x, 0));
    PrefixCode(x, y, 0);
    PrefixFirst(x, y, CodeAt(x, 0));
    ShiftCode(x, n, 0);
    PrefixCode(x[n..], y, 0);
    assert (x + y)[..n] == x[..n] && (x + y)[n..] == x[n..] + y;
  }

  lemma KeptFirst(piece: seq<byte>, more: seq<seq<byte>>)
    ensures Kept([piece] + more) == (if |piece| > CodeAt(piece, 0) then [piece] else []) + Kept(more)
  {
    assert ([piece] + more)[1..] == more;
  }

  // ------------------------------------------------------- the incremental loop

  lemma CodeStays(d: seq<byte>, n: nat)
    requires CodeAt(d, 0) > 0 && CodeAt(d, 0) <= n <= |d|
    ensures CodeAt(d[..n], 0) == CodeAt(d, 0)
  {
  }

  /** `read` returns a chunk at a time; the first empty one is the end of the file. */
  function Stream(chunks: seq<seq<byte>>): seq<byte> {
    if chunks == [] || chunks[0] == [] then [] else chunks[0] + Stream(chunks[1..])
  }

  lemma StreamStep(chunks: seq<seq<byte>>, next: nat)
    requires next <= |chunks|
    ensures next == |chunks| || chunks[next] == [] ==> Stream(chunks[next..]) == []
    ensures next < |chunks| ==>
              Stream(chunks[next..]) == if chunks[next] == [] then [] else chunks[next] + Stream(chunks[next + 1..])
  {
    if next < |chunks| { assert chunks[next..][1..] == chunks[next + 1..]; }
  }

  /** Before the first start code: the bytes given up so far make no difference. */
  ghost predicate Searching(whole: seq<byte>, buffer: seq<byte>, rest: seq<byte>) {
    Tail(whole) == Tail(buffer + rest) && (whole == [] <==> buffer + rest == [])
  }

  /** Afterwards: what was yielded and what the remaining bytes yield make up the goal. */
  ghost predicate Splitting(goal: seq<seq<byte>>, nals: seq<seq<byte>>, buffer: seq<byte>, rest: seq<byte>) {
    && CodeAt(buffer, 0) > 0 && CodeAt(buffer + rest, 0) > 0
    && goal == nals + NalsOf(buffer + rest)
  }

  function Yield(nals: seq<seq<byte>>, piece: seq<byte>, length: nat): seq<seq<byte>> {
    if |piece| > length then nals + [piece] else nals
  }

  /** Taking the first closed piece off the buffer leaves the total outcome unchanged. */
  lemma NextPiece(goal: seq<seq<byte>>, nals: seq<seq<byte>>, buffer: seq<byte>, rest: seq<byte>)
    requires Splitting(goal, nals, buffer, rest) && First(buffer, CodeAt(buffer, 0)) < |buffer|
    ensures var n := First(buffer, CodeAt(buffer, 0));
            Splitting(goal, Yield(nals, buffer[..n], CodeAt(buffer, 0)), buffer[n..], rest)
  {
    var n := First(buffer, CodeAt(buffer, 0));
    var piece := buffer[..n];
    CutSplits(buffer, rest);
    CodeStays(buffer, n);
    var more := Kept(Cut(buffer[n..] + rest));
    KeptFirst(piece, Cut(buffer[n..] + rest));
    assert nals + ([piece] + more) == nals + [piece] + more;
    assert [] + more == more;
  }

  lemma LastPiece(goal: seq<seq<byte>>, nals: seq<seq<byte>>, buffer: seq<byte>)
    requires Splitting(goal, nals, buffer, []) && First(buffer, CodeAt(buffer, 0)) == |buffer|
    ensures goal == Yield(nals, buffer, CodeAt(buffer, 0))
  {
    assert buffer + [] == buffer;
    KeptFirst(buffer, []);
    assert [buffer] + [] == [buffer];
  }

  lemma ReadMore(goal: seq<seq<byte>>, nals: seq<seq<byte>>, buffer: seq<byte>, chunk: seq<byte>, later: seq<byte>)
    requires Splitting(goal, nals, buffer, chunk + later)
    ensures Splitting(goal, nals, buffer + chunk, later)
  {
    PrefixCode(buffer, chunk, 0);
    assert buffer + (chunk + later) == buffer + chunk + later;
  }

  lemma SearchMore(whole: seq<byte>, buffer: seq<byte>, chunk: seq<byte>, later: seq<byte>)
    requires Searching(whole, buffer, chunk + later)
    ensures Searching(whole, buffer + chunk, later)
  {
    assert buffer + (chunk + later) == buffer + chunk + later;
  }

  lemma NothingFound(whole: seq<byte>, buffer: seq<byte>)
    requires Searching(whole, buffer, []) && First(buffer, 0) == |buffer|
    ensures StreamNals(whole) == if buffer == [] then Nals([]) else NoStartCode
  {
    assert buffer + [] == buffer;
  }

  lemma Trim(whole: seq<byte>, buffer: seq<byte>, rest: seq<byte>)
    requires Searching(whole, buffer, rest) && |buffer| > 4 && First(buffer, 0) == |buffer|
    ensures Searching(whole, buffer[|buffer| - 4..], rest)
  {
    var d, e, t := buffer + rest, buffer[|buffer| - 4..] + rest, |buffer| - 4;
    TrimKeepsFirst(buffer, rest);
    assert d[t..] == e;
    assert d[t + First(e, 0)..] == e[First(e, 0)..];
  }

  lemma TailAt(buffer: seq<byte>, rest: seq<byte>)
    requires First(buffer, 0) < |buffer|
    ensures Tail(buffer + rest) == buffer[First(buffer, 0)..] + rest
    ensures CodeAt(buffer[First(buffer, 0)..], 0) > 0
  {
    var at := First(buffer, 0);
    PrefixFirst(buffer, rest, 0);
    ShiftCode(buffer, at, 0);
    DropAppend(buffer, rest, at);
  }

  lemma Synchronise(whole: seq<byte>, buffer: seq<byte>, rest: seq<byte>) returns (goal: seq<seq<byte>>)
    requires Searching(whole, buffer, rest) && First(buffer, 0) < |buffer|
    ensures StreamNals(whole) == Nals(goal) && Splitting(goal, [], buffer[First(buffer, 0)..], rest)
  {
    TailAt(buffer, rest);
    goal := NalsOf(Tail(buffer + rest));
    assert goal == [] + goal;
  }

  /** The inner loop: every NAL unit already closed by a following start code. */
  method TakeNals(buffered: seq<byte>, before: seq<seq<byte>>, ghost goal: seq<seq<byte>>, ghost rest: seq<byte>)
      returns (buffer: seq<byte>, nals: seq<seq<byte>>)
    requires Splitting(goal, before, buffered, rest)
    ensures Splitting(goal, nals, buffer, rest) && First(buffer, CodeAt(buffer, 0)) == |buffer|
  {
    buffer, nals := buffered, before;
    while true
      invariant Splitting(goal, nals, buffer, rest)
      decreases |buffer|
    {
      var current := FindStartCode(buffer, 0);
      // The synchronisation error of the source cannot be reached.
      assert current == Found(0, CodeAt(buffer, 0));
      var following := FindStartCode(buffer, current.length);
      if following.NotFound? { break; }
      var nal := buffer[..following.at];
      NextPiece(goal, nals, buffer, rest);
      buffer := buffer[following.at..];
      if |nal| > current.length { nals := nals + [nal]; }
    }
  }

  /** For every schedule of reads the generator yields what the whole stream means. */
  method IterNals(chunks: seq<seq<byte>>, chunkSize: int) returns (r: NalResult)
    ensures r == if chunkSize < 8 then ChunkTooSmall else StreamNals(Stream(chunks))
  {
    if chunkSize < 8 { return ChunkTooSmall; }
    var buffer: seq<byte> := [];
    var firstFound := false;
    var nals: seq<seq<byte>> := [];
    var next := 0;
    ghost var whole := Stream(chunks);
    ghost var rest := whole;
    ghost var goal: seq<seq<byte>> := [];
    assert chunks[0..] == chunks && buffer + rest == rest;
    while true
      invariant 0 <= next <= |chunks| && rest == Stream(chunks[next..])
      invariant !firstFound ==> nals == [] && Searching(whole, buffer, rest)
      invariant firstFound ==> StreamNals(whole) == Nals(goal) && Splitting(goal, nals, buffer, rest)
      decreases |chunks| - next
    {
      var chunk := if next < |chunks| then chunks[next] else [];
      var eof := chunk == [];
      StreamStep(chunks, next);
      if !eof {
        rest := Stream(chunks[next + 1..]);
        if firstFound { ReadMore(goal, nals, buffer, chunk, rest); }
        else { SearchMore(whole, buffer, chunk, rest); }
        buffer := buffer + chunk;
        next := next + 1;
      }

      if !firstFound {
        var first := FindStartCode(buffer, 0);
        if first.NotFound? {
          if eof {
            NothingFound(whole, buffer);
            if buffer != [] { return NoStartCode; }
            return Nals([]);
          }
          if |buffer| > 4 {
            Trim(whole, buffer, rest);
            buffer := buffer[|buffer| - 4..];
          }
          continue;
        }
        goal := Synchronise(whole, buffer, rest);
        assert buffer[0..] == buffer;
        if first.at > 0 { buffer := buffer[first.at..]; }
        firstFound := true;
      }

      buffer, nals := TakeNals(buffer, nals, goal, rest);
      if eof {
        LastPiece(goal, nals, buffer);
        var last := FindStartCode(buffer, 0);
        if last.Found? && last.at == 0 && |buffer| > last.length {
          nals := nals + [buffer];
        }
        return Nals(nals);
      }
    }
  }

  // ------------------------------------- what makes `Cut` the right definition

  /** Splitting loses nothing: the pieces add up to the stream. */
  lemma {:induction false} CutAccounts(d: seq<byte>)
    requires CodeAt(d, 0) > 0
    ensures Flatten(Cut(d)) == d
    decreases |d|
  {
    var n := First(d, CodeAt(d, 0));
    if n == |d| {
      assert [d][1..] == [] && d + [] == d;
    } else {
      ShiftCode(d, n, 0);
      CutAccounts(d[n..]);
      assert d == d[..n] + d[n..];
      assert Cut(d)[1..] == Cut(d[n..]);
    }
  }

  /**
   `pieces` cuts `d` exactly at its start codes: each piece begins with one, and none
   begins strictly inside a piece, as seen in the whole stream.
   */
  ghost predicate CutsAtCodes(d: seq<byte>, pieces: seq<seq<byte>>)
    decreases |pieces|
  {
    && pieces != [] && Flatten(pieces) == d
    && CodeAt(d, 0) > 0 && CodeAt(d, 0) <= |pieces[0]| <= |d|
    && NoCode(d, CodeAt(d, 0), |pieces[0]|)
    && (|pieces| > 1 ==> CutsAtCodes(d[|pieces[0]|..], pieces[1..]))
  }

  lemma {:induction false} CutCutsAtCodes(d: seq<byte>)
    requires CodeAt(d, 0) > 0
    ensures CutsAtCodes(d, Cut(d))
    decreases |d|
  {
    CutAccounts(d);
    var n := First(d, CodeAt(d, 0));
    FirstSkips(d, CodeAt(d, 0));
    if n < |d| {
      ShiftCode(d, n, 0);
      CutCutsAtCodes(d[n..]);
      assert Cut(d)[1..] == Cut(d[n..]);
    }
  }

  /** There is only one way to cut a stream at its start codes. */
  lemma {:induction false} CutUnique(d: seq<byte>, pieces: seq<seq<byte>>)
    requires CodeAt(d, 0) > 0 && CutsAtCodes(d, pieces)
    ensures pieces == Cut(d)
    decreases |pieces|
  {
    var n := |pieces[0]|;
    assert d == pieces[0] + Flatten(pieces[1..]);
    assert pieces == [pieces[0]] + pieces[1..] && pieces[0] == d[..n];
    if |pieces| == 1 {
      assert pieces[1..] == [] && n == |d| && pieces[0] == d;
      FirstUnique(d, CodeAt(d, 0), n);
      assert Cut(d) == [d] == pieces;
    } else {
      assert CutsAtCodes(d[n..], pieces[1..]);
      ShiftCode(d, n, 0);
      FirstUnique(d, CodeAt(d, 0), n);
      CutUnique(d[n..], pieces[1..]);
    }
  }

  /** A unit as an encoder writes it: payload present, no inner start code, no trailing zero. */
  ghost predicate CleanNal(nal: seq<byte>) {
    && CodeAt(nal, 0) > 0 && |nal| > CodeAt(nal, 0) && nal[|nal| - 1] != 0
    && forall j :: CodeAt(nal, 0) <= j ==> CodeAt(nal, j) == 0
  }

  lemma CleanInStream(nal: seq<byte>, rest: seq<byte>, j: nat)
    requires CleanNal(nal) && CodeAt(nal, 0) <= j < |nal|
    ensures CodeAt(nal + rest, j) == 0
  {
    PrefixCode(nal, rest, j);
    // A code reaching into `rest` would need the last byte of `nal` to be zero.
    assert (nal + rest)[|nal| - 1] != 0 && CodeAt(nal, j) == 0;
  }

  lemma {:induction false} CleanNalsCut(nals: seq<seq<byte>>)
    requires nals != [] && forall n :: n in nals ==> CleanNal(n)
    ensures CutsAtCodes(Flatten(nals), nals) && Kept(nals) == nals
    decreases |nals|
  {
    var nal, rest := nals[0], Flatten(nals[1..]);
    var d := Flatten(nals);
    assert d == nal + rest;
    PrefixCode(nal, rest, 0);
    forall j | CodeAt(d, 0) <= j < |nal| ensures CodeAt(d, j) == 0 { CleanInStream(nal, rest, j); }
    assert d[|nal|..] == rest;
    assert nals == [nal] + nals[1..];
    KeptFirst(nal, nals[1..]);
    if |nals| > 1 { CleanNalsCut(nals[1..]); }
  }

  /** Writing clean units one after another and splitting the stream gives them back. */
  lemma NalRoundTrip(nals: seq<seq<byte>>)
    requires forall n :: n in nals ==> CleanNal(n)
    ensures StreamNals(Flatten(nals)) == Nals(nals)
  {
    if nals != [] {
      var d := Flatten(nals);
      CleanNalsCut(nals);
      CutUnique(d, nals);
      FirstUnique(d, 0, 0);
      assert d[0..] == d;
    }
  }

  /** The generator raises only for a non-empty stream without a start code. */
  lemma RaisesOnlyWithoutCode(d: seq<byte>)
    ensures StreamNals(d).NoStartCode? <==> d != [] && forall i :: CodeAt(d, i) == 0
  {
    FirstSkips(d, 0);
    if d != [] && First(d, 0) < |d| { assert CodeAt(d, First(d, 0)) > 0; }
  }

  // ------------------------------------------------------------- access units

  /** `start_code_length` and `nal_unit_type`; None where they raise. */
  function NalType(nal: seq<byte>): Option<nat> {
    var offset := CodeAt(nal, 0);
    if offset == 0 || |nal| <= offset then None else Some(nal[offset] % 32)
  }

  const AUD := 9

  predicate IsAud(nal: seq<byte>) {
    NalType(nal) == Some(AUD)
  }

  lemma {:induction false} KeptTyped(pieces: seq<seq<byte>>)
    requires forall p :: p in pieces ==> CodeAt(p, 0) > 0
    ensures forall n :: n in Kept(pieces) ==> NalType(n).Some?
  {
    if pieces != [] { KeptTyped(pieces[1..]); }
  }

  lemma {:induction false} CutPiecesStartWithCode(d: seq<byte>)
    requires CodeAt(d, 0) > 0
    ensures forall p :: p in Cut(d) ==> CodeAt(p, 0) > 0
    decreases |d|
  {
    var n := First(d, CodeAt(d, 0));
    if n < |d| {
      CodeStays(d, n);
      ShiftCode(d, n, 0);
      CutPiecesStartWithCode(d[n..]);
    }
  }

  /** Everything the splitter yields has a type, so grouping its output never raises. */
  lemma StreamNalsTyped(d: seq<byte>)
    ensures StreamNals(d).Nals? ==> forall n :: n in StreamNals(d).nals ==> NalType(n).Some?
  {
    if d != [] && First(d, 0) < |d| {
      ShiftCode(d, First(d, 0), 0);
      CutPiecesStartWithCode(d[First(d, 0)..]);
      KeptTyped(Cut(d[First(d, 0)..]));
    }
  }

  /** Index of the first access unit delimiter at or after `i`. */
  function NextAud(nals: seq<seq<byte>>, i: nat): (r: nat)
    requires i <= |nals|
    ensures i <= r <= |nals| && (r < |nals| ==> IsAud(nals[r]))
    ensures forall j :: i <= j < r ==> !IsAud(nals[j])
    decreases |nals| - i
  {
    if i == |nals| || IsAud(nals[i]) then i else NextAud(nals, i + 1)
  }

  /** One group per delimiter; without a delimiter yet, one group per NAL. */
  function Groups(nals: seq<seq<byte>>): seq<seq<seq<byte>>>
    decreases |nals|
  {
    if nals == [] then []
    else
      var k := if IsAud(nals[0]) then NextAud(nals, 1) else 1;
      [nals[..k]] + Groups(nals[k..])
  }

  function Joined(groups: seq<seq<seq<byte>>>): (units: seq<seq<byte>>)
    ensures |units| == |groups| && forall i :: 0 <= i < |groups| ==> units[i] == Flatten(groups[i])
  {
    seq(|groups|, i requires 0 <= i < |groups| => Flatten(groups[i]))
  }

  function Units(nals: seq<seq<byte>>): seq<seq<byte>> {
    Joined(Groups(nals))
  }

  /** Grouping preserves the concatenated bytes. */
  lemma {:induction false} UnitsAccount(nals: seq<seq<byte>>)
    ensures Flatten(Units(nals)) == Flatten(nals)
    decreases |nals|
  {
    if nals != [] {
      var k := if IsAud(nals[0]) then NextAud(nals, 1) else 1;
      UnitsAccount(nals[k..]);
      assert nals == nals[..k] + nals[k..];
      FlattenAppend(nals[..k], nals[k..]);
      assert Units(nals)[1..] == Units(nals[k..]);
    }
  }

  /** Once a delimiter was seen, every group starts with its only delimiter. */
  lemma {:induction false} GroupsStartWithAud(nals: seq<seq<byte>>)
    requires nals != [] ==> IsAud(nals[0])
    ensures forall g :: g in Groups(nals) ==>
              g != [] && IsAud(g[0]) && forall j :: 0 < j < |g| ==> !IsAud(g[j])
    decreases |nals|
  {
    if nals != [] {
      var k := NextAud(nals, 1);
      GroupsStartWithAud(nals[k..]);
    }
  }

  /** Before the first delimiter, units are the NALs themselves. */
  lemma {:induction false} GroupsBeforeAud(nals: seq<seq<byte>>)
    ensures var a := NextAud(nals, 0);
            && |Groups(nals)| == a + |Groups(nals[a..])|
            && (forall i :: 0 <= i < a ==> Groups(nals)[i] == [nals[i]])
            && Groups(nals)[a..] == Groups(nals[a..])
    decreases |nals|
  {
    var a := NextAud(nals, 0);
    if a == 0 {
      assert nals[0..] == nals;
    } else {
      var t := nals[1..];
      NextAudShift(nals);
      GroupsBeforeAud(t);
      assert nals[..1] == [nals[0]] && t[a - 1..] == nals[a..];
      assert Groups(nals)[1..] == Groups(t);
      forall i | 0 < i < a ensures Groups(nals)[i] == [nals[i]] { assert Groups(nals)[i] == Groups(t)[i - 1]; }
    }
  }

  lemma NextAudUnique(nals: seq<seq<byte>>, i: nat, r: nat)
    requires i <= r <= |nals| && (r < |nals| ==> IsAud(nals[r]))
    requires forall j :: i <= j < r ==> !IsAud(nals[j])
    ensures NextAud(nals, i) == r
  {
  }

  lemma NextAudShift(nals: seq<seq<byte>>)
    requires nals != [] && !IsAud(nals[0])
    ensures NextAud(nals, 0) == 1 + NextAud(nals[1..], 0)
  {
    NextAudUnique(nals, 0, 1 + NextAud(nals[1..], 0));
  }

  /** Number of leading NALs whose type can be read. */
  function TypedPrefix(nals: seq<seq<byte>>): (n: nat)
    ensures n <= |nals| && (forall i :: 0 <= i < n ==> NalType(nals[i]).Some?)
    ensures n < |nals| ==> NalType(nals[n]).None?
  {
    if nals == [] || NalType(nals[0]).None? then 0 else 1 + TypedPrefix(nals[1..])
  }

  /** Appending to a pending group, or closing it when a delimiter follows. */
  lemma {:induction false} GroupsAppend(done: seq<seq<byte>>, pending: seq<seq<byte>>)
    requires pending != [] ==> IsAud(pending[0]) && forall j :: 0 < j < |pending| ==> !IsAud(pending[j])
    requires pending == [] ==> NextAud(done, 0) == |done|
    ensures Groups(done + pending) == Groups(done) + (if pending == [] then [] else [pending])
    decreases |done|
  {
    if pending == [] {
      assert done + [] == done;
    } else if done == [] {
      assert done + pending == pending;
      NextAudUnique(pending, 1, |pending|);
      assert pending[..|pending|] == pending && pending[|pending|..] == [];
    } else {
      var all := done + pending;
      var k := if IsAud(done[0]) then NextAud(done, 1) else 1;
      if IsAud(done[0]) {
        assert k == |done| ==> all[k] == pending[0];
        NextAudUnique(all, 1, k);
      }
      DropAppend(done, pending, k);
      GroupsAppend(done[k..], pending);
      assert Groups(all) == [done[..k]] + (Groups(done[k..]) + [pending]);
    }
  }

  lemma {:induction false} GroupsAppendPlain(done: seq<seq<byte>>, nal: seq<byte>)
    requires NextAud(done, 0) == |done| && !IsAud(nal)
    ensures Groups(done + [nal]) == Groups(done) + [[nal]]
    decreases |done|
  {
    if done == [] {
      assert done + [nal] == [nal] && [nal][..1] == [nal] && [nal][1..] == [];
    } else {
      var all := done + [nal];
      NextAudShift(done);
      assert all[1..] == done[1..] + [nal] && all[..1] == done[..1];
      GroupsAppendPlain(done[1..], nal);
    }
  }

  lemma {:induction false} TypedPrefixUnique(nals: seq<seq<byte>>, n: nat)
    requires n < |nals| && NalType(nals[n]).None?
    requires forall j :: 0 <= j < n ==> NalType(nals[j]).Some?
    ensures TypedPrefix(nals) == n
  {
    var r := TypedPrefix(nals);
    assert !(r < n) && !(n < r);
  }

  lemma NextAudOf(done: seq<seq<byte>>, pending: seq<seq<byte>>)
    requires pending != [] ==> IsAud(pending[0])
    requires pending == [] ==> NextAud(done, 0) == |done|
    ensures (NextAud(done + pending, 0) < |done + pending|) <==> pending != []
  {
    if pending == [] {
      assert done + pending == done;
    } else {
      assert IsAud((done + pending)[|done|]);
    }
  }

  ghost predicate OneUnit(pending: seq<seq<byte>>) {
    pending != [] ==> IsAud(pending[0]) && forall j :: 0 < j < |pending| ==> !IsAud(pending[j])
  }

  lemma JoinedAppend(groups: seq<seq<seq<byte>>>, group: seq<seq<byte>>)
    ensures Joined(groups + [group]) == Joined(groups) + [Flatten(group)]
  {
  }

  lemma CloseUnit(done: seq<seq<byte>>, pending: seq<seq<byte>>)
    requires OneUnit(pending) && (pending == [] ==> NextAud(done, 0) == |done|)
    ensures Units(done + pending) == if pending == [] then Units(done) else Units(done) + [Flatten(pending)]
    ensures NextAud(done + pending, 0) < |done + pending| <==> pending != []
  {
    GroupsAppend(done, pending);
    JoinedAppend(Groups(done), pending);
    NextAudOf(done, pending);
  }

  lemma StillNoAud(done: seq<seq<byte>>, nal: seq<byte>)
    requires NextAud(done, 0) == |done| && !IsAud(nal)
    ensures NextAud(done + [nal], 0) == |done| + 1
  {
    var all := done + [nal];
    forall j | 0 <= j < |all| ensures !IsAud(all[j]) {
      if j < |done| { assert all[j] == done[j]; }
    }
    NextAudUnique(all, 0, |all|);
  }

  lemma PlainUnit(done: seq<seq<byte>>, nal: seq<byte>)
    requires NextAud(done, 0) == |done| && !IsAud(nal)
    ensures Units(done + [nal]) == Units(done) + [nal]
    ensures NextAud(done + [nal], 0) == |done| + 1
  {
    GroupsAppendPlain(done, nal);
    JoinedAppend(Groups(done), [nal]);
    FlattenSingle(nal);
    StillNoAud(done, nal);
  }

  /** The NALs seen are those of the units yielded, then those of the pending unit. */
  ghost predicate Grouped(seen: seq<seq<byte>>, units: seq<seq<byte>>, done: seq<seq<byte>>, pending: seq<seq<byte>>) {
    && seen == done + pending && units == Units(done)
    && OneUnit(pending) && (pending == [] ==> NextAud(done, 0) == |done|)
  }

  lemma BeginUnit(seen: seq<seq<byte>>, units: seq<seq<byte>>, done: seq<seq<byte>>, pending: seq<seq<byte>>,
                  nal: seq<byte>)
    requires Grouped(seen, units, done, pending) && IsAud(nal)
    ensures Grouped(seen + [nal], if pending == [] then units else units + [Flatten(pending)], done + pending, [nal])
  {
    CloseUnit(done, pending);
  }

  lemma GrowUnit(seen: seq<seq<byte>>, units: seq<seq<byte>>, done: seq<seq<byte>>, pending: seq<seq<byte>>,
                 nal: seq<byte>)
    requires Grouped(seen, units, done, pending) && !IsAud(nal) && pending != []
    ensures Grouped(seen + [nal], units, done, pending + [nal])
  {
    assert done + (pending + [nal]) == done + pending + [nal];
  }

  lemma LoneUnit(seen: seq<seq<byte>>, units: seq<seq<byte>>, done: seq<seq<byte>>, nal: seq<byte>)
    requires Grouped(seen, units, done, []) && !IsAud(nal)
    ensures Grouped(seen + [nal], units + [nal], done + [nal], [])
  {
    assert done + [] == done;
    PlainUnit(done, nal);
  }

  lemma LastUnit(seen: seq<seq<byte>>, units: seq<seq<byte>>, done: seq<seq<byte>>, pending: seq<seq<byte>>)
    requires Grouped(seen, units, done, pending)
    ensures Units(seen) == if pending == [] then units else units + [Flatten(pending)]
    ensures NextAud(seen, 0) < |seen| <==> pending != []
  {
    CloseUnit(done, pending);
  }

  /**
   What is yielded is exactly the units of the NALs seen; when a NAL has no readable
   type the generator raises, and the unit still pending is not yielded.
   */
  method IterAccessUnits(nals: seq<seq<byte>>) returns (units: seq<seq<byte>>, raised: bool)
    ensures raised <==> exists n :: n in nals && NalType(n).None?
    ensures !raised ==> units == Units(nals)
    ensures raised ==>
              var seen := nals[..TypedPrefix(nals)];
              var all := Units(seen);
              units == if NextAud(seen, 0) < |seen| then all[..|all| - 1] else all
  {
    units := [];
    var pending: seq<seq<byte>> := [];
    var sawAud := false;
    ghost var done: seq<seq<byte>> := [];
    for i := 0 to |nals|
      invariant Grouped(nals[..i], units, done, pending)
      invariant sawAud <==> pending != []
      invariant forall j :: 0 <= j < i ==> NalType(nals[j]).Some?
    {
      var nal := nals[i];
      TakeNext(nals, i);
      var nalType := NalType(nal);
      if nalType.None? {
        LastUnit(nals[..i], units, done, pending);
        TypedPrefixUnique(nals, i);
        assert nal in nals;
        return units, true;
      }
      if nalType.value == AUD {
        BeginUnit(nals[..i], units, done, pending, nal);
        done := done + pending;
        if pending != [] {
          units := units + [Flatten(pending)];
          pending := [];
        }
        sawAud := true;
        pending := pending + [nal];
      } else if sawAud {
        GrowUnit(nals[..i], units, done, pending, nal);
        pending := pending + [nal];
      } else {
        LoneUnit(nals[..i], units, done, nal);
        units := units + [nal];
        done := done + [nal];
      }
    }
    assert nals[..|nals|] == nals;
    LastUnit(nals, units, done, pending);
    if pending != [] {
      units := units + [Flatten(pending)];
    }
    return units, false;
  }

  /**
   The whole pipeline: whatever was read, grouping what the splitter yields never fails
   half-way, and the access units carry exactly the bytes of the NAL units.
   */
  lemma AccessUnitsOfStream(d: seq<byte>)
    requires StreamNals(d).Nals?
    ensures var nals := StreamNals(d).nals;
            && TypedPrefix(nals) == |nals|
            && Flatten(Units(nals)) == Flatten(nals)
  {
    StreamNalsTyped(d);
    UnitsAccount(StreamNals(d).nals);
    var nals := StreamNals(d).nals;
    assert forall i :: 0 <= i < |nals| ==> NalType(nals[i]).Some?;
  }
}
