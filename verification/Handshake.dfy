/**
 The bounded marker search of live/backend.py `_HandshakeParser`: of the text before
 the marker only a proper prefix of the marker is ever retained.
 */
module Handshake {
  import opened Bytes

  /** "HCCAST handshake complete:" */
  function Marker(): (m: seq<byte>)
    ensures |m| == 26
  {
    [0x48, 0x43, 0x43, 0x41, 0x53, 0x54, 0x20, 0x68, 0x61, 0x6E, 0x64, 0x73, 0x68,
     0x61, 0x6B, 0x65, 0x20, 0x63, 0x6F, 0x6D, 0x70, 0x6C, 0x65, 0x74, 0x65, 0x3A]
  }

  // --------------------------------------------------- the whole-stream meaning

  /** Everything in `s` from `i` on agrees with `m`: an occurrence starts there, or still may. */
  predicate CouldStart(s: seq<byte>, m: seq<byte>, i: int) {
    0 <= i <= |s| && if |s| - i >= |m| then s[i..i + |m|] == m else s[i..] == m[..|s| - i]
  }

  /** The earliest position at or after `i` where the marker starts or could still start. */
  function EarliestFrom(s: seq<byte>, m: seq<byte>, i: nat): (r: nat)
    requires i <= |s|
    ensures i <= r <= |s| && CouldStart(s, m, r)
    decreases |s| - i
  {
    if CouldStart(s, m, i) || i == |s| then i else EarliestFrom(s, m, i + 1)
  }

  function Earliest(s: seq<byte>, m: seq<byte>): (r: nat)
    ensures r <= |s| && CouldStart(s, m, r)
  {
    EarliestFrom(s, m, 0)
  }

  ghost predicate NoStart(s: seq<byte>, m: seq<byte>, i: nat, r: nat) {
    forall j :: i <= j < r ==> !CouldStart(s, m, j)
  }

  lemma {:induction false} EarliestSkips(s: seq<byte>, m: seq<byte>, i: nat)
    requires i <= |s|
    ensures NoStart(s, m, i, EarliestFrom(s, m, i))
    decreases |s| - i
  {
    if i < |s| && !CouldStart(s, m, i) { EarliestSkips(s, m, i + 1); }
  }

  lemma {:induction false} EarliestUnique(s: seq<byte>, m: seq<byte>, i: nat, r: nat)
    requires i <= r <= |s| && CouldStart(s, m, r) && NoStart(s, m, i, r)
    ensures EarliestFrom(s, m, i) == r
    decreases r - i
  {
    if i < r {
      assert !CouldStart(s, m, i);
      EarliestUnique(s, m, i + 1, r);
    }
  }

  /** What the search amounts to on a stream, whatever the chunks were. */
  datatype Verdict = Undecided | TooLarge | Seen(at: nat)

  function SearchVerdict(s: seq<byte>, m: seq<byte>, limit: nat): Verdict {
    var e := Earliest(s, m);
    if e > limit then TooLarge else if e + |m| <= |s| then Seen(e) else Undecided
  }

  /** `Seen` is the first occurrence of the marker, and is reported only within the limit. */
  lemma SeenIsFirst(s: seq<byte>, m: seq<byte>, limit: nat)
    requires SearchVerdict(s, m, limit).Seen?
    ensures var p := SearchVerdict(s, m, limit).at;
            p <= limit && At(s, m, p) && forall j :: 0 <= j < p ==> !At(s, m, j)
  {
    EarliestSkips(s, m, 0);
    var p := Earliest(s, m);
    forall j | 0 <= j < p ensures !At(s, m, j) { assert !CouldStart(s, m, j); }
  }

  /** No occurrence within the limit is ever missed. */
  lemma OccurrenceIsSeen(s: seq<byte>, m: seq<byte>, limit: nat, p: nat)
    requires At(s, m, p) && p <= limit && forall j :: 0 <= j < p ==> !At(s, m, j)
    ensures SearchVerdict(s, m, limit) == Seen(p)
  {
    forall j | 0 <= j < p ensures !CouldStart(s, m, j) { assert !At(s, m, j); }
    EarliestUnique(s, m, 0, p);
  }

  /** More bytes only narrow down where the marker may start. */
  lemma CouldStartShrinks(s: seq<byte>, c: seq<byte>, m: seq<byte>, i: nat)
    requires i <= |s| && CouldStart(s + c, m, i)
    ensures CouldStart(s, m, i)
  {
    var t := s + c;
    if |s| - i >= |m| {
      assert t[i..i + |m|] == s[i..i + |m|];
    } else if |t| - i >= |m| {
      assert s[i..] == t[i..i + |m|][..|s| - i];
    } else {
      assert s[i..] == t[i..][..|s| - i];
    }
  }

  lemma EarliestGrows(s: seq<byte>, c: seq<byte>, m: seq<byte>)
    ensures Earliest(s, m) <= Earliest(s + c, m)
  {
    var r := Earliest(s + c, m);
    if r < Earliest(s, m) {
      CouldStartShrinks(s, c, m, r);
      EarliestSkips(s, m, 0);
    }
  }

  /** A verdict once reached is the verdict on every longer stream. */
  lemma VerdictIsFinal(s: seq<byte>, c: seq<byte>, m: seq<byte>, limit: nat)
    requires SearchVerdict(s, m, limit) != Undecided
    ensures SearchVerdict(s + c, m, limit) == SearchVerdict(s, m, limit)
  {
    EarliestGrows(s, c, m);
    if SearchVerdict(s, m, limit).Seen? {
      var p := Earliest(s, m);
      SeenIsFirst(s, m, limit);
      assert (s + c)[p..p + |m|] == s[p..p + |m|];
      forall j | 0 <= j < p ensures !CouldStart(s + c, m, j) {
        EarliestSkips(s, m, 0);
        if CouldStart(s + c, m, j) { CouldStartShrinks(s, c, m, j); }
      }
      EarliestUnique(s + c, m, 0, p);
    }
  }

  lemma NoEarlierStart(s: seq<byte>, c: seq<byte>, m: seq<byte>, j: nat)
    requires j < Earliest(s, m)
    ensures !CouldStart(s + c, m, j)
  {
    EarliestSkips(s, m, 0);
    if CouldStart(s + c, m, j) { CouldStartShrinks(s, c, m, j); }
  }

  lemma NoLaterStart(t: seq<byte>, m: seq<byte>, e: nat, j: nat)
    requires e <= |t| && j < Earliest(t[e..], m)
    ensures !CouldStart(t, m, e + j)
  {
    EarliestSkips(t[e..], m, 0);
    ShiftStart(t, m, e, j);
  }

  /** Keeping the text from the earliest possible start is as good as keeping everything. */
  lemma RetainedSuffices(s: seq<byte>, c: seq<byte>, m: seq<byte>)
    ensures Earliest(s + c, m) == Earliest(s, m) + Earliest(s[Earliest(s, m)..] + c, m)
  {
    var e := Earliest(s, m);
    var combined := s[e..] + c;
    var r := Earliest(combined, m);
    DropAppend(s, c, e);
    ShiftStart(s + c, m, e, r);
    assert (s + c)[e..] == combined;
    forall j | 0 <= j < e + r ensures !CouldStart(s + c, m, j) {
      if j < e { NoEarlierStart(s, c, m, j); } else { NoLaterStart(s + c, m, e, j - e); }
    }
    EarliestUnique(s + c, m, 0, e + r);
  }

  lemma ShiftStart(t: seq<byte>, m: seq<byte>, e: nat, j: nat)
    requires e <= |t|
    ensures CouldStart(t[e..], m, j) <==> CouldStart(t, m, e + j)
  {
    if e + j <= |t| {
      var u := t[e..];
      if |u| - j >= |m| { assert u[j..j + |m|] == t[e + j..e + j + |m|]; } else { assert u[j..] == t[e + j..]; }
    }
  }

  /** Between feeds, before the marker: only text that may begin the marker is retained. */
  ghost predicate Searching(stream: seq<byte>, before: seq<byte>, total: nat, m: seq<byte>) {
    before == stream[Earliest(stream, m)..] && |before| < |m| && total == |stream|
  }

  function Capped(s: seq<byte>, limit: nat): seq<byte> {
    if |s| <= limit then s else s[..limit]
  }

  lemma CombinedSuffices(s: seq<byte>, c: seq<byte>, m: seq<byte>)
    ensures var e := Earliest(s, m);
            s[e..] + c == (s + c)[e..] && Earliest(s + c, m) == e + Earliest(s[e..] + c, m)
  {
    RetainedSuffices(s, c, m);
    DropAppend(s, c, Earliest(s, m));
  }

  lemma ExtendSeen(s: seq<byte>, c: seq<byte>, m: seq<byte>, limit: nat)
    requires SearchVerdict(s, m, limit).Seen?
    ensures SearchVerdict(s + c, m, limit) == SearchVerdict(s, m, limit)
    ensures var from := Earliest(s, m) + |m|; (s + c)[from..] == s[from..] + c
  {
    VerdictIsFinal(s, c, m, limit);
    DropAppend(s, c, Earliest(s, m) + |m|);
  }

  // -------------------------------------------------------------- the searches

  /** `bytes.find`: first occurrence, or -1. */
  method Find(s: seq<byte>, m: seq<byte>) returns (at: int)
    requires |m| > 0
    ensures at >= 0 ==> at == Earliest(s, m) && At(s, m, at)
    ensures at < 0 ==> at == -1 && |s| - Earliest(s, m) < |m|
  {
    at := 0;
    while at + |m| <= |s|
      invariant 0 <= at <= |s| && NoStart(s, m, 0, at)
    {
      if s[at..at + |m|] == m {
        EarliestUnique(s, m, 0, at);
        return;
      }
      at := at + 1;
    }
    assert CouldStart(s, m, Earliest(s, m));
    at := -1;
  }

  lemma StartsAtEnd(s: seq<byte>, m: seq<byte>, length: nat)
    requires length <= |s| && length < |m|
    ensures CouldStart(s, m, |s| - length) <==> s[|s| - length..] == m[..length]
  {
  }

  /** The longest suffix of `s` that is a proper prefix of `m`. */
  method Border(s: seq<byte>, m: seq<byte>) returns (keep: nat)
    requires |m| > 0 && |s| - Earliest(s, m) < |m|
    ensures keep == |s| - Earliest(s, m)
  {
    var length := if |s| < |m| - 1 then |s| else |m| - 1;
    EarliestSkips(s, m, 0);
    while length > 0
      invariant 0 <= length <= |s| && length < |m|
      invariant NoStart(s, m, 0, |s| - length)
    {
      StartsAtEnd(s, m, length);
      if s[|s| - length..] == m[..length] {
        EarliestUnique(s, m, 0, |s| - length);
        return length;
      }
      length := length - 1;
    }
    EarliestUnique(s, m, 0, |s|);
    return 0;
  }

  // ---------------------------------------------------------------- the parser

  /** What the JSON decoder makes of the payload collected so far. */
  datatype Decoded = Incomplete | Complete(product: string, version: string) | Malformed

  datatype Error = JsonTooLarge | JsonInvalid | JsonIncomplete | StdoutEof

  class HandshakeParser {
    const limit: nat
    const marker: seq<byte>
    const decode: seq<byte> -> Decoded
    var before: seq<byte>
    var preTotal: nat
    var payload: seq<byte>
    var markerSeen: bool
    var outcome: Option<(string, string)>
    var error: Option<Error>
    ghost var stream: seq<byte>   // every byte taken in so far

    predicate Active() reads this {
      outcome.None? && error.None?
    }

    /**
     The search state is a function of the stream alone; after the marker the payload
     is what follows it, cut off at the limit.
     */
    ghost predicate Valid() reads this {
      && |marker| > 0
      && match SearchVerdict(stream, marker, limit)
         case Undecided =>
           && !markerSeen && outcome.None? && payload == []
           && error in {None, Some(StdoutEof)}
           && (error.None? ==> Searching(stream, before, preTotal, marker))
         case TooLarge => !markerSeen && outcome.None? && payload == [] && error == Some(JsonTooLarge)
         case Seen(p) =>
           && markerSeen && before == []
           && payload == Capped(stream[p + |marker|..], limit)
           && (error == Some(JsonTooLarge) <==> |stream| - p - |marker| > limit)
    }

    constructor (limit: nat, decode: seq<byte> -> Decoded)
      ensures Valid() && Active() && stream == [] && !markerSeen
      ensures this.limit == limit && this.decode == decode && marker == Marker()
    {
      this.limit, this.decode, this.marker := limit, decode, Marker();
      before, preTotal, payload, markerSeen, outcome, error := [], 0, [], false, None, None;
      stream := [];
    }

    /**
     For every chunking the state reached is the verdict on the concatenated stream
     (`Valid`), and the collected payload is judged as it decodes; a parser that has finished
     ignores further chunks.
     */
    method FeedStdout(chunk: seq<byte>)
      requires Valid()
      modifies this
      ensures Valid()
      ensures stream == if old(Active()) then old(stream) + chunk else old(stream)
      ensures !old(Active()) ==> outcome == old(outcome) && error == old(error)
      ensures old(Active()) && markerSeen && error != Some(JsonTooLarge) ==> Judged()
    {
      if outcome.Some? || error.Some? { return; }
      var more := chunk;
      if !markerSeen {
        var found;
        found, more := SeekMarker(chunk);
        if !found { return; }
        assert payload + more == more;
      } else {
        ExtendSeen(stream, chunk, marker, limit);
        stream := stream + chunk;
      }
      TakePayload(more, SearchVerdict(stream, marker, limit).at);
    }

    /** The search half: a verdict on the longer stream, and what follows the marker. */
    method SeekMarker(chunk: seq<byte>) returns (found: bool, more: seq<byte>)
      requires Valid() && Active() && !markerSeen
      modifies this`before, this`preTotal, this`markerSeen, this`error, this`stream
      ensures stream == old(stream) + chunk
      ensures !found ==> Valid()
      ensures found <==> SearchVerdict(stream, marker, limit).Seen?
      ensures found ==> markerSeen && before == [] && error.None?
                        && more == stream[Earliest(stream, marker) + |marker|..]
    {
      ghost var from := Earliest(stream, marker);
      CombinedSuffices(stream, chunk, marker);
      var combined := before + chunk;
      stream := stream + chunk;
      found, more := false, [];
      var markerAt := Find(combined, marker);
      if markerAt < 0 {
        preTotal := preTotal + |chunk|;
        Retain(combined, from);
        return;
      }
      var markerStart := preTotal - |before| + markerAt;
      before := [];
      if markerStart > limit {
        error := Some(JsonTooLarge);
        return;
      }
      DropDrop(stream, from, markerAt + |marker|);
      found, more, markerSeen := true, combined[markerAt + |marker|..], true;
    }

    /** The text without the marker: what may still begin it is retained. */
    method Retain(combined: seq<byte>, ghost from: nat)
      requires |marker| > 0 && Active() && !markerSeen && payload == [] && preTotal == |stream|
      requires from <= |stream| && combined == stream[from..]
      requires Earliest(stream, marker) == from + Earliest(combined, marker)
      requires |combined| - Earliest(combined, marker) < |marker|
      modifies this`before, this`error
      ensures Valid() && !SearchVerdict(stream, marker, limit).Seen?
    {
      var keep := Border(combined, marker);
      DropDrop(stream, from, |combined| - keep);
      before := if keep > 0 then combined[|combined| - keep..] else [];
      if preTotal - keep > limit { error := Some(JsonTooLarge); }
    }

    /** The second half of `feed_stdout`: bounded collection, then an attempt to decode. */
    method TakePayload(more: seq<byte>, ghost at: nat)
      requires |marker| > 0 && Active() && markerSeen && before == [] && |payload| <= limit
      requires SearchVerdict(stream, marker, limit) == Seen(at) && payload + more == stream[at + |marker|..]
      modifies this`payload, this`outcome, this`error
      ensures Valid() && (error != Some(JsonTooLarge) ==> Judged())
    {
      var room := limit - |payload|;
      payload := payload + (if |more| <= room + 1 then more else more[..room + 1]);
      if |more| > room {
        error := Some(JsonTooLarge);
        payload := payload[..limit];
        assert payload == (old(payload) + more)[..limit];
        return;
      }
      ParseIfComplete();
    }

    /** Outcome and error are what the payload decodes to. */
    predicate Judged()
      reads this`payload, this`outcome, this`error
    {
      match decode(payload)
      case Incomplete => outcome == None && error == None
      case Complete(p, v) => outcome == Some((p, v)) && error == None
      case Malformed => outcome == None && error == Some(JsonInvalid)
    }

    method ParseIfComplete()
      requires Active()
      modifies this`outcome, this`error
      ensures Judged()
    {
      match decode(payload)
      case Incomplete =>
      case Complete(p, v) => outcome := Some((p, v));
      case Malformed => error := Some(JsonInvalid);
    }

    method StdoutEofReached()
      requires Valid()
      modifies this`error
      ensures Valid()
      ensures error == if !old(Active()) then old(error)
                       else if markerSeen then Some(JsonIncomplete) else Some(StdoutEof)
    {
      if outcome.None? && error.None? {
        error := Some(if markerSeen then JsonIncomplete else StdoutEof);
      }
    }
  }
}
