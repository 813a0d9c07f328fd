/**
 HCCAST framing (protocol.py): length-prefixed frames, a stateful encoder, and an
 incremental parser that resynchronises after corruption.
 */
module Framing {
  import opened Bytes

  const HEADER_SIZE := 16
  const TWO32 := 0x1_0000_0000

  // ---------------------------------------------------------------- commands

  datatype Command =
    UNK | VID | AUD | SETS | SETR | SETC | SETF | SETV | DBG | STOP | UPG | UPGI | PING | SINF

  /** The four magic bytes of a command, read as one big-endian word. */
  function Word(c: Command): (w: int)
    ensures 0 <= w < TWO32
  {
    match c
    case UNK => 0
    case VID => 0x00444956
    case AUD => 0x00445541
    case SETS => 0x53544553
    case SETR => 0x52544553
    case SETC => 0x43544553
    case SETF => 0x46544553
    case SETV => 0x56544553
    case DBG => 0x00474244
    case STOP => 0x504F5453
    case UPG => 0x00475055
    case UPGI => 0x49475055
    case PING => 0x474E4950
    case SINF => 0x464E4953
  }

  function Magic(c: Command): (m: seq<byte>)
    ensures |m| == 4
  {
    Be32(Word(c))
  }

  /** The enumeration is searched in declaration order; an absent magic is UNK. */
  function Search(commands: seq<Command>, word: int): (c: Command)
    ensures c != UNK ==> Word(c) == word
  {
    if commands == [] then UNK
    else if Word(commands[0]) == word then commands[0]
    else Search(commands[1..], word)
  }

  function Commands(): seq<Command> {
    [UNK, VID, AUD, SETS, SETR, SETC, SETF, SETV, DBG, STOP, UPG, UPGI, PING, SINF]
  }

  function FromWord(word: int): (c: Command)
    ensures c != UNK ==> Word(c) == word
  {
    Search(Commands(), word)
  }

  function FromMagic(magic: seq<byte>): Command {
    if |magic| == 4 then FromWord(U32At(magic, 0)) else UNK
  }

  predicate Known(magic: seq<byte>) {
    FromMagic(magic) != UNK
  }

  lemma {:induction false} SearchFinds(commands: seq<Command>, c: Command)
    requires c in commands
    ensures Search(commands, Word(c)) == c
  {
    if Word(commands[0]) != Word(c) { SearchFinds(commands[1..], c); }
  }

  lemma FromWordInverts(c: Command)
    ensures FromWord(Word(c)) == c
  {
    var all := Commands();
    assert all[0] == UNK && all[1] == VID && all[2] == AUD && all[3] == SETS && all[4] == SETR
        && all[5] == SETC && all[6] == SETF && all[7] == SETV && all[8] == DBG && all[9] == STOP
        && all[10] == UPG && all[11] == UPGI && all[12] == PING && all[13] == SINF;
    SearchFinds(all, c);
  }

  /** Every enumerated magic is recognised as its own command. */
  lemma FromMagicInverts(c: Command)
    ensures FromMagic(Magic(c)) == c
  {
    assert At(Magic(c), Magic(c), 0);
    Be32Inverts(Word(c), Magic(c), 0);
    FromWordInverts(c);
  }

  // ------------------------------------------------------- big-endian words

  function Be32(n: int): (s: seq<byte>)
    requires 0 <= n < TWO32
    ensures |s| == 4
  {
    var a := n / 0x100;
    var b := a / 0x100;
    var c := b / 0x100;
    [c, b % 0x100, a % 0x100, n % 0x100]
  }

  function U32(a: byte, b: byte, c: byte, d: byte): (n: int)
    ensures 0 <= n < TWO32
  {
    ((a * 0x100 + b) * 0x100 + c) * 0x100 + d
  }

  function U32At(s: seq<byte>, i: nat): (n: int)
    requires i + 4 <= |s|
    ensures 0 <= n < TWO32
  {
    U32(s[i], s[i + 1], s[i + 2], s[i + 3])
  }

  lemma DigitsOfU32(a: byte, b: byte, c: byte, d: byte)
    ensures Be32(U32(a, b, c, d)) == [a, b, c, d]
  {
    var n := U32(a, b, c, d);
    var n1 := (a * 0x100 + b) * 0x100 + c;
    assert n / 0x100 == n1 && n % 0x100 == d;
    assert n1 / 0x100 == a * 0x100 + b && n1 % 0x100 == c;
    assert (a * 0x100 + b) / 0x100 == a && (a * 0x100 + b) % 0x100 == b;
  }

  lemma U32OfDigits(n: int)
    requires 0 <= n < TWO32
    ensures var w := Be32(n); U32(w[0], w[1], w[2], w[3]) == n
  {
  }

  lemma Be32Inverts(n: int, s: seq<byte>, i: nat)
    requires 0 <= n < TWO32 && At(s, Be32(n), i)
    ensures U32At(s, i) == n
  {
    U32OfDigits(n);
    var w := Be32(n);
    var t := s[i..i + 4];
    assert t == w;
    assert s[i] == t[0] && s[i + 1] == t[1] && s[i + 2] == t[2] && s[i + 3] == t[3];
  }

  lemma U32Inverts(s: seq<byte>, i: nat)
    requires i + 4 <= |s|
    ensures Be32(U32At(s, i)) == s[i..i + 4]
  {
    DigitsOfU32(s[i], s[i + 1], s[i + 2], s[i + 3]);
  }

  // ------------------------------------------------------------------ frames

  datatype Frame = Frame(sequence: int, command: Command, flags: int, payload: seq<byte>,
                         rawCommand: Option<seq<byte>>)

  datatype Encoded = Encoded(bytes: seq<byte>) | RawCommandRequired | LengthOverflow

  function TotalLength(f: Frame): int {
    HEADER_SIZE + |f.payload|
  }

  function Header(length: int, sequence: int, magic: seq<byte>, flags: int): seq<byte>
    requires 0 <= length < TWO32
  {
    Be32(length) + Be32(sequence % TWO32) + magic + Be32(flags % TWO32)
  }

  /** `Frame.to_bytes`: sequence and flags are truncated to 32 bits, the length is not. */
  function ToBytes(f: Frame): Encoded {
    var magic := if f.command != UNK then Some(Magic(f.command)) else f.rawCommand;
    if magic.None? || |magic.value| != 4 then RawCommandRequired
    else if TotalLength(f) >= TWO32 then LengthOverflow
    else Encoded(Header(TotalLength(f), f.sequence, magic.value, f.flags) + f.payload)
  }

  /** The frame read from the front of `s` once its `total` bytes are all buffered. */
  function Decode(s: seq<byte>, total: nat): (f: Frame)
    requires HEADER_SIZE <= total <= |s|
  {
    var magic := s[8..12];
    Frame(U32At(s, 4), FromMagic(magic), U32At(s, 12), s[HEADER_SIZE..total],
          if FromMagic(magic) == UNK then Some(magic) else None)
  }

  lemma KnownMagic(magic: seq<byte>)
    requires |magic| == 4 && Known(magic)
    ensures Magic(FromMagic(magic)) == magic
  {
    U32Inverts(magic, 0);
  }

  lemma FourWords(a: seq<byte>, b: seq<byte>, c: seq<byte>, d: seq<byte>, tail: seq<byte>)
    requires |a| == |b| == |c| == |d| == 4
    ensures var s := a + b + c + d + tail;
            s[0..4] == a && s[4..8] == b && s[8..12] == c && s[12..16] == d && s[16..] == tail
  {
  }

  lemma Words(s: seq<byte>)
    requires |s| >= HEADER_SIZE
    ensures s[0..4] + s[4..8] + s[8..12] + s[12..16] == s[..HEADER_SIZE]
  {
  }

  lemma HeaderReadsBack(s: seq<byte>)
    requires |s| >= HEADER_SIZE
    ensures Header(U32At(s, 0), U32At(s, 4), s[8..12], U32At(s, 12)) == s[..HEADER_SIZE]
  {
    var a, b, d := U32At(s, 0), U32At(s, 4), U32At(s, 12);
    U32Inverts(s, 0);
    U32Inverts(s, 4);
    U32Inverts(s, 12);
    assert b % TWO32 == b && d % TWO32 == d;
    Words(s);
  }

  /** Decoding loses nothing: the frame writes back exactly the bytes it was read from. */
  lemma DecodeWritesBack(s: seq<byte>, total: nat)
    requires HEADER_SIZE <= total <= |s| && U32At(s, 0) == total
    ensures ToBytes(Decode(s, total)) == Encoded(s[..total])
  {
    HeaderReadsBack(s);
    if Known(s[8..12]) { KnownMagic(s[8..12]); }
    assert s[..total] == s[..HEADER_SIZE] + s[HEADER_SIZE..total];
  }

  /** What the parser can hand out, and an encoder may therefore expect back unchanged. */
  predicate Canonical(f: Frame, max: nat) {
    && 0 <= f.sequence < TWO32 && 0 <= f.flags < TWO32
    && TotalLength(f) <= max && TotalLength(f) < TWO32
    && (if f.command != UNK then f.rawCommand == None
        else f.rawCommand.Some? && |f.rawCommand.value| == 4 && !Known(f.rawCommand.value))
  }

  lemma HeaderSlices(length: int, sequence: int, magic: seq<byte>, flags: int, tail: seq<byte>)
    requires 0 <= length < TWO32 && 0 <= sequence < TWO32 && 0 <= flags < TWO32 && |magic| == 4
    ensures var s := Header(length, sequence, magic, flags) + tail;
            && |s| == HEADER_SIZE + |tail| && s[HEADER_SIZE..] == tail && s[8..12] == magic
            && U32At(s, 0) == length && U32At(s, 4) == sequence && U32At(s, 12) == flags
  {
    var a, b, d := Be32(length), Be32(sequence), Be32(flags);
    assert sequence % TWO32 == sequence && flags % TWO32 == flags;
    var s := Header(length, sequence, magic, flags) + tail;
    FourWords(a, b, magic, d, tail);
    Be32Inverts(length, s, 0);
    Be32Inverts(sequence, s, 4);
    Be32Inverts(flags, s, 12);
  }

  /** The four octets that name the command on the wire. */
  function WireMagic(f: Frame): seq<byte>
    requires f.command == UNK ==> f.rawCommand.Some?
  {
    if f.command != UNK then Magic(f.command) else f.rawCommand.value
  }

  lemma CanonicalEncodes(f: Frame, max: nat)
    requires Canonical(f, max)
    ensures ToBytes(f) == Encoded(Header(TotalLength(f), f.sequence, WireMagic(f), f.flags) + f.payload)
    ensures |WireMagic(f)| == 4 && FromMagic(WireMagic(f)) == f.command
  {
    if f.command != UNK { FromMagicInverts(f.command); }
  }

  /** What is encoded is what a parser reads off the front of any longer stream. */
  lemma EncodeReadsBack(f: Frame, max: nat, tail: seq<byte>)
    requires Canonical(f, max)
    ensures ToBytes(f).Encoded? && |ToBytes(f).bytes| == TotalLength(f)
    ensures var s := ToBytes(f).bytes + tail;
            U32At(s, 0) == TotalLength(f) && Decode(s, TotalLength(f)) == f
  {
    CanonicalEncodes(f, max);
    var header := Header(TotalLength(f), f.sequence, WireMagic(f), f.flags);
    HeaderSlices(TotalLength(f), f.sequence, WireMagic(f), f.flags, f.payload + tail);
    AppendAssociates(header, f.payload, tail);
    PayloadSlice(header + (f.payload + tail), f.payload, tail);
  }

  lemma PayloadSlice(s: seq<byte>, payload: seq<byte>, tail: seq<byte>)
    requires |s| >= HEADER_SIZE && s[HEADER_SIZE..] == payload + tail
    ensures s[HEADER_SIZE..HEADER_SIZE + |payload|] == payload
  {
    assert s[HEADER_SIZE..HEADER_SIZE + |payload|] == s[HEADER_SIZE..][..|payload|];
  }

  // ----------------------------------------------- what a whole stream means

  /** One byte thrown away while resynchronising, or one frame handed out. */
  datatype Item = Dropped(b: byte) | Emitted(frame: Frame)

  datatype Parsed = Parsed(items: seq<Item>, rest: seq<byte>, resync: bool)

  function Drops(s: seq<byte>): (items: seq<Item>)
    ensures |items| == |s| && forall i :: 0 <= i < |s| ==> items[i] == Dropped(s[i])
  {
    seq(|s|, i requires 0 <= i < |s| => Dropped(s[i]))
  }

  predicate Plausible(length: int, max: nat) {
    HEADER_SIZE <= length <= max
  }

  /** A complete header with a sane length and a known command starts at `i`. */
  predicate Candidate(s: seq<byte>, i: int, max: nat) {
    0 <= i && i + HEADER_SIZE <= |s| && Plausible(U32At(s, i), max) && Known(s[i + 8..i + 12])
  }

  /** First candidate at or after `i`; without one, the offset that leaves 15 bytes. */
  function Scan(s: seq<byte>, i: nat, max: nat): (k: nat)
    requires i + HEADER_SIZE <= |s| + 1
    ensures i <= k && k + HEADER_SIZE <= |s| + 1
    ensures k + HEADER_SIZE <= |s| ==> Candidate(s, k, max)
    ensures forall j :: i <= j < k ==> !Candidate(s, j, max)
    decreases |s| - i
  {
    if i + HEADER_SIZE > |s| || Candidate(s, i, max) then i else Scan(s, i + 1, max)
  }

  function Prepend(items: seq<Item>, p: Parsed): Parsed {
    p.(items := items + p.items)
  }

  /** Everything the parser does to the buffered bytes `s` before it waits for more. */
  function Parse(s: seq<byte>, resync: bool, max: nat): Parsed
    decreases |s|, if resync then 1 else 2
  {
    if |s| < HEADER_SIZE then Parsed([], s, resync)
    else if resync then
      var k := Scan(s, 0, max);
      if k + HEADER_SIZE > |s| then Parsed(Drops(s[..k]), s[k..], true)
      else Prepend(Drops(s[..k]), TakeFrame(s[k..], max))
    else if !Plausible(U32At(s, 0), max) then Parse(s, true, max)
    else TakeFrame(s, max)
  }

  function TakeFrame(s: seq<byte>, max: nat): Parsed
    requires |s| >= HEADER_SIZE && Plausible(U32At(s, 0), max)
    decreases |s|, 0
  {
    var total := U32At(s, 0);
    if |s| < total then Parsed([], s, false)
    else Prepend([Emitted(Decode(s, total))], Parse(s[total..], false, max))
  }

  /** Feeding `more` to a parser in state `p`. */
  function Feed(p: Parsed, more: seq<byte>, max: nat): Parsed {
    Prepend(p.items, Parse(p.rest + more, p.resync, max))
  }

  function FeedAll(p: Parsed, chunks: seq<seq<byte>>, max: nat): Parsed
    decreases |chunks|
  {
    if chunks == [] then p else FeedAll(Feed(p, chunks[0], max), chunks[1..], max)
  }

  function ItemFrames(item: Item): seq<Frame> {
    match item case Dropped(_) => [] case Emitted(f) => [f]
  }

  function ItemDrops(item: Item): seq<byte> {
    match item case Dropped(b) => [b] case Emitted(_) => []
  }

  function ItemBytes(item: Item): seq<byte> {
    match item
    case Dropped(b) => [b]
    case Emitted(f) => if ToBytes(f).Encoded? then ToBytes(f).bytes else []
  }

  /** The frames of a trace, in order. */
  function Frames(items: seq<Item>): seq<Frame> {
    FlatMap(ItemFrames, items)
  }

  /** How many bytes a trace throws away. */
  function DropCount(items: seq<Item>): nat {
    |FlatMap(ItemDrops, items)|
  }

  /** The bytes that a trace accounts for, in order. */
  function Wire(items: seq<Item>): seq<byte> {
    FlatMap(ItemBytes, items)
  }

  /** A state in which the parser has nothing left to do until more bytes arrive. */
  predicate Settled(s: seq<byte>, resync: bool, max: nat) {
    if resync then |s| == HEADER_SIZE - 1
    else |s| < HEADER_SIZE || (Plausible(U32At(s, 0), max) && |s| < U32At(s, 0))
  }

  // --------------------------------------------------------- trace algebra

  lemma TraceAppend(a: seq<Item>, b: seq<Item>)
    ensures Frames(a + b) == Frames(a) + Frames(b)
    ensures DropCount(a + b) == DropCount(a) + DropCount(b)
    ensures Wire(a + b) == Wire(a) + Wire(b)
  {
    FlatMapAppend(ItemFrames, a, b);
    FlatMapAppend(ItemDrops, a, b);
    FlatMapAppend(ItemBytes, a, b);
  }

  lemma {:induction false} TraceOfDrops(s: seq<byte>)
    ensures Frames(Drops(s)) == [] && DropCount(Drops(s)) == |s| && Wire(Drops(s)) == s
  {
    if s != [] {
      assert Drops(s)[1..] == Drops(s[1..]);
      TraceOfDrops(s[1..]);
    }
  }

  lemma TraceOfFrame(f: Frame)
    ensures Frames([Emitted(f)]) == [f] && DropCount([Emitted(f)]) == 0
    ensures ToBytes(f).Encoded? ==> Wire([Emitted(f)]) == ToBytes(f).bytes
  {
    FlatMapOne(ItemFrames, Emitted(f));
    FlatMapOne(ItemDrops, Emitted(f));
    FlatMapOne(ItemBytes, Emitted(f));
  }

  lemma PrependTwice(a: seq<Item>, b: seq<Item>, p: Parsed)
    ensures Prepend(a, Prepend(b, p)) == Prepend(a + b, p)
  {
    assert a + (b + p.items) == a + b + p.items;
  }

  // ------------------------------------------------------ chunk independence

  lemma ScanUnique(s: seq<byte>, k: nat, max: nat)
    requires HEADER_SIZE <= |s| && k + HEADER_SIZE <= |s| + 1
    requires k + HEADER_SIZE <= |s| ==> Candidate(s, k, max)
    requires forall j :: 0 <= j < k ==> !Candidate(s, j, max)
    ensures Scan(s, 0, max) == k
  {
    var r := Scan(s, 0, max);
    if r < k { assert false; }
  }

  lemma CandidateShift(s: seq<byte>, k: nat, j: nat, max: nat)
    requires k <= |s|
    ensures Candidate(s[k..], j, max) <==> Candidate(s, k + j, max)
  {
    if k + j + HEADER_SIZE <= |s| {
      assert s[k..][j + 8..j + 12] == s[k + j + 8..k + j + 12];
    }
  }

  lemma CandidatePrefix(x: seq<byte>, y: seq<byte>, j: nat, max: nat)
    requires j + HEADER_SIZE <= |x|
    ensures Candidate(x + y, j, max) <==> Candidate(x, j, max)
  {
    assert (x + y)[j + 8..j + 12] == x[j + 8..j + 12];
  }

  lemma ScanShift(s: seq<byte>, k: nat, max: nat)
    requires k + HEADER_SIZE <= |s|
    requires forall j :: 0 <= j < k ==> !Candidate(s, j, max)
    ensures Scan(s, 0, max) == k + Scan(s[k..], 0, max)
  {
    var t := s[k..];
    var r := Scan(t, 0, max);
    forall j | 0 <= j < k + r ensures !Candidate(s, j, max) {
      if k <= j { CandidateShift(s, k, j - k, max); }
    }
    CandidateShift(s, k, r, max);
    ScanUnique(s, k + r, max);
  }

  lemma DropsSplit(s: seq<byte>, k: nat, r: nat)
    requires k + r <= |s|
    ensures Drops(s[..k]) + Drops(s[k..][..r]) == Drops(s[..k + r])
    ensures s[k..][r..] == s[k + r..]
  {
  }

  /** Dropping a stretch without candidates first makes no difference to the search. */
  lemma SkipAhead(s: seq<byte>, k: nat, max: nat)
    requires HEADER_SIZE <= |s| && k + HEADER_SIZE <= |s| + 1
    requires forall j :: 0 <= j < k ==> !Candidate(s, j, max)
    ensures Parse(s, true, max) == Prepend(Drops(s[..k]), Parse(s[k..], true, max))
  {
    if k + HEADER_SIZE > |s| {
      ScanUnique(s, k, max);
      assert Drops(s[..k]) + [] == Drops(s[..k]);
    } else {
      SkipBefore(s, k, s[k..], max);
    }
  }

  lemma SkipBefore(s: seq<byte>, k: nat, t: seq<byte>, max: nat)
    requires k + HEADER_SIZE <= |s| && t == s[k..]
    requires forall j :: 0 <= j < k ==> !Candidate(s, j, max)
    ensures Parse(s, true, max) == Prepend(Drops(s[..k]), Parse(t, true, max))
  {
    var r := Scan(t, 0, max);
    ScanShift(s, k, max);
    DropsSplit(s, k, r);
    DropDrop(s, k, r);
    if r + HEADER_SIZE <= |t| {
      PrependTwice(Drops(s[..k]), Drops(t[..r]), TakeFrame(t[r..], max));
    }
  }

  lemma DecodePrefix(x: seq<byte>, y: seq<byte>, total: nat)
    requires HEADER_SIZE <= total <= |x|
    ensures Decode(x + y, total) == Decode(x, total)
  {
    assert (x + y)[8..12] == x[8..12] && (x + y)[HEADER_SIZE..total] == x[HEADER_SIZE..total];
  }

  lemma {:induction false} TakeFrameSplits(x: seq<byte>, y: seq<byte>, max: nat)
    requires |x| >= HEADER_SIZE && Plausible(U32At(x, 0), max)
    ensures TakeFrame(x + y, max) == Feed(TakeFrame(x, max), y, max)
    decreases |x|, 0
  {
    var total := U32At(x, 0);
    assert U32At(x + y, 0) == total;
    if |x| < total {
      assert Parse(x + y, false, max) == TakeFrame(x + y, max);
      assert [] + TakeFrame(x + y, max).items == TakeFrame(x + y, max).items;
    } else {
      var first := [Emitted(Decode(x, total))];
      assert (x + y)[total..] == x[total..] + y;
      DecodePrefix(x, y, total);
      ParseSplits(x[total..], y, false, max);
      var p := Parse(x[total..], false, max);
      PrependTwice(first, p.items, Parse(p.rest + y, p.resync, max));
    }
  }

  /** A frame found in the first part is found in the whole, at the same place. */
  lemma FoundSplits(x: seq<byte>, y: seq<byte>, k: nat, max: nat)
    requires |x| >= HEADER_SIZE && k == Scan(x, 0, max) && k + HEADER_SIZE <= |x|
    requires forall j :: 0 <= j < k ==> !Candidate(x + y, j, max)
    requires Candidate(x[k..], 0, max) && TakeFrame(x[k..] + y, max) == Feed(TakeFrame(x[k..], max), y, max)
    ensures Parse(x + y, true, max) == Feed(Parse(x, true, max), y, max)
  {
    CandidatePrefix(x, y, k, max);
    ScanUnique(x + y, k, max);
    DropAppend(x, y, k);
    var p := TakeFrame(x[k..], max);
    AppendAssociates(Drops(x[..k]), p.items, Parse(p.rest + y, p.resync, max).items);
  }

  /** One feed of `x + y` does exactly what a feed of `x` and then of `y` does. */
  lemma {:induction false} ParseSplits(x: seq<byte>, y: seq<byte>, resync: bool, max: nat)
    ensures Parse(x + y, resync, max) == Feed(Parse(x, resync, max), y, max)
    decreases |x|, if resync then 1 else 2
  {
    if |x| < HEADER_SIZE {
    } else if resync {
      var k := Scan(x, 0, max);
      forall j | 0 <= j < k ensures !Candidate(x + y, j, max) {
        CandidatePrefix(x, y, j, max);
      }
      assert (x + y)[..k] == x[..k] && (x + y)[k..] == x[k..] + y;
      if k + HEADER_SIZE > |x| {
        SkipAhead(x + y, k, max);
      } else {
        TakeFrameSplits(x[k..], y, max);
        FoundSplits(x, y, k, max);
      }
    } else if !Plausible(U32At(x, 0), max) {
      ParseSplits(x, y, true, max);
    } else {
      TakeFrameSplits(x, y, max);
    }
  }

  lemma {:induction false} ParseSettles(s: seq<byte>, resync: bool, max: nat)
    requires resync ==> |s| >= HEADER_SIZE - 1
    ensures var p := Parse(s, resync, max); Settled(p.rest, p.resync, max)
    decreases |s|, if resync then 1 else 2
  {
    if |s| < HEADER_SIZE {
    } else if resync {
      var k := Scan(s, 0, max);
      if k + HEADER_SIZE <= |s| { TakeFrameSettles(s[k..], max); }
    } else if !Plausible(U32At(s, 0), max) {
      ParseSettles(s, true, max);
    } else {
      TakeFrameSettles(s, max);
    }
  }

  lemma {:induction false} TakeFrameSettles(s: seq<byte>, max: nat)
    requires |s| >= HEADER_SIZE && Plausible(U32At(s, 0), max)
    ensures var p := TakeFrame(s, max); Settled(p.rest, p.resync, max)
    decreases |s|, 0
  {
    var total := U32At(s, 0);
    if |s| >= total { ParseSettles(s[total..], false, max); }
  }

  lemma FeedSettles(p: Parsed, more: seq<byte>, max: nat)
    requires Settled(p.rest, p.resync, max)
    ensures var q := Feed(p, more, max); Settled(q.rest, q.resync, max)
  {
    ParseSettles(p.rest + more, p.resync, max);
  }

  lemma SettledParse(s: seq<byte>, resync: bool, max: nat)
    requires Settled(s, resync, max)
    ensures Parse(s, resync, max) == Parsed([], s, resync)
  {
  }

  lemma FeedTwice(p: Parsed, x: seq<byte>, y: seq<byte>, max: nat)
    ensures Feed(Feed(p, x, max), y, max) == Feed(p, x + y, max)
  {
    assert p.rest + (x + y) == p.rest + x + y;
    FeedFrom(p.items, p.rest + x, p.resync, y, max);
  }

  lemma FeedFrom(items: seq<Item>, s: seq<byte>, resync: bool, y: seq<byte>, max: nat)
    ensures Feed(Prepend(items, Parse(s, resync, max)), y, max) == Prepend(items, Parse(s + y, resync, max))
  {
    ParseSplits(s, y, resync, max);
    var a := Parse(s, resync, max);
    PrependTwice(items, a.items, Parse(a.rest + y, a.resync, max));
  }

  /**
   Chunk independence: however a stream is split into feeds, the trace (hence the
   frames, their order and the discarded count), the buffer and the resynchronising
   flag are those of one single feed.
   */
  lemma {:induction false} ChunkIndependence(p: Parsed, chunks: seq<seq<byte>>, max: nat)
    requires Settled(p.rest, p.resync, max)
    ensures FeedAll(p, chunks, max) == Feed(p, Flatten(chunks), max)
    decreases |chunks|
  {
    if chunks == [] {
      SettledParse(p.rest, p.resync, max);
      assert p.rest + [] == p.rest;
      assert p.items + [] == p.items;
    } else {
      FeedSettles(p, chunks[0], max);
      ChunkIndependence(Feed(p, chunks[0], max), chunks[1..], max);
      FeedTwice(p, chunks[0], Flatten(chunks[1..]), max);
    }
  }

  // -------------------------------------------------- nothing lost or invented

  lemma AccountsAppend(items: seq<Item>, q: Parsed, x: seq<byte>, y: seq<byte>)
    requires Wire(items) == x && Wire(q.items) + q.rest == y
    ensures Wire(items + q.items) + q.rest == x + y
  {
    TraceAppend(items, q.items);
    assert x + Wire(q.items) + q.rest == x + (Wire(q.items) + q.rest);
  }

  lemma {:induction false} ParseAccounts(s: seq<byte>, resync: bool, max: nat)
    ensures var p := Parse(s, resync, max); Wire(p.items) + p.rest == s
    decreases |s|, if resync then 1 else 2
  {
    if |s| < HEADER_SIZE {
      assert [] + s == s;
    } else if resync {
      var k := Scan(s, 0, max);
      TraceOfDrops(s[..k]);
      assert s == s[..k] + s[k..];
      if k + HEADER_SIZE <= |s| {
        TakeFrameAccounts(s[k..], max);
        AccountsAppend(Drops(s[..k]), TakeFrame(s[k..], max), s[..k], s[k..]);
      }
    } else if !Plausible(U32At(s, 0), max) {
      ParseAccounts(s, true, max);
    } else {
      TakeFrameAccounts(s, max);
    }
  }

  lemma {:induction false} TakeFrameAccounts(s: seq<byte>, max: nat)
    requires |s| >= HEADER_SIZE && Plausible(U32At(s, 0), max)
    ensures var p := TakeFrame(s, max); Wire(p.items) + p.rest == s
    decreases |s|, 0
  {
    var total := U32At(s, 0);
    if |s| < total {
      assert [] + s == s;
    } else {
      DecodeWritesBack(s, total);
      TraceOfFrame(Decode(s, total));
      ParseAccounts(s[total..], false, max);
      AccountsAppend([Emitted(Decode(s, total))], Parse(s[total..], false, max), s[..total], s[total..]);
      SplitAt(s, total);
    }
  }

  /**
   The stream is exactly the interleaving, in order, of the discarded bytes and the
   re-encoded frames, followed by what is still buffered.
   */
  lemma StreamAccounted(chunks: seq<seq<byte>>, max: nat)
    ensures var p := FeedAll(Parsed([], [], false), chunks, max);
            && Wire(p.items) + p.rest == Flatten(chunks)
            && (p.resync ==> |p.rest| == HEADER_SIZE - 1)
  {
    var p0 := Parsed([], [], false);
    var s := Flatten(chunks);
    ChunkIndependence(p0, chunks, max);
    assert [] + s == s;
    ParseAccounts(s, false, max);
    ParseSettles(s, false, max);
    assert [] + Parse(s, false, max).items == Parse(s, false, max).items;
  }

  /** The offset in the stream at which item `i` of a trace starts. */
  function Offset(items: seq<Item>, i: nat): nat
    requires i <= |items|
  {
    |Wire(items[..i])|
  }

  /**
   A byte is dropped only where no candidate header starts, and a frame that follows
   a dropped byte starts at a candidate header: resynchronisation skips no frame.
   */
  ghost predicate ExactResync(s: seq<byte>, items: seq<Item>, resync: bool, max: nat) {
    forall i :: 0 <= i < |items| ==> ExactAt(s, items, i, resync, max)
  }

  predicate ExactAt(s: seq<byte>, items: seq<Item>, i: nat, resync: bool, max: nat)
    requires i < |items|
  {
    match items[i]
    case Dropped(_) => !Candidate(s, Offset(items, i), max)
    case Emitted(_) =>
      (if i == 0 then resync else items[i - 1].Dropped?) ==> Candidate(s, Offset(items, i), max)
  }

  lemma OffsetAfter(front: seq<Item>, tail: seq<Item>, i: nat)
    requires i <= |tail|
    ensures Offset(front + tail, |front| + i) == |Wire(front)| + Offset(tail, i)
  {
    assert (front + tail)[..|front| + i] == front + tail[..i];
    TraceAppend(front, tail[..i]);
  }

  lemma DropsThenExact(s: seq<byte>, k: nat, tail: seq<Item>, max: nat)
    requires k <= |s| && forall j :: 0 <= j < k ==> !Candidate(s, j, max)
    requires ExactResync(s[k..], tail, true, max)
    ensures ExactResync(s, Drops(s[..k]) + tail, true, max)
  {
    var d := Drops(s[..k]);
    var items := d + tail;
    forall i | 0 <= i < |items| ensures ExactAt(s, items, i, true, max) {
      if i < k {
        assert items[..i] == Drops(s[..i]);
        TraceOfDrops(s[..i]);
      } else {
        TraceOfDrops(s[..k]);
        OffsetAfter(d, tail, i - k);
        CandidateShift(s, k, Offset(tail, i - k), max);
        assert ExactAt(s[k..], tail, i - k, true, max);
        assert items[i] == tail[i - k] && (i > k ==> items[i - 1] == tail[i - k - 1]);
      }
    }
  }

  lemma FrameThenExact(s: seq<byte>, total: nat, f: Frame, tail: seq<Item>, resync: bool, max: nat)
    requires total <= |s| && Wire([Emitted(f)]) == s[..total]
    requires resync ==> Candidate(s, 0, max)
    requires ExactResync(s[total..], tail, false, max)
    ensures ExactResync(s, [Emitted(f)] + tail, resync, max)
  {
    forall i | 0 <= i <= |tail| ensures ExactAt(s, [Emitted(f)] + tail, i, resync, max) {
      if i == 0 {
        assert ([Emitted(f)] + tail)[..0] == [];
      } else {
        LaterExact(s, total, f, tail, i - 1, resync, max);
      }
    }
  }

  lemma LaterExact(s: seq<byte>, total: nat, f: Frame, tail: seq<Item>, j: nat, resync: bool, max: nat)
    requires total <= |s| && Wire([Emitted(f)]) == s[..total] && j < |tail|
    requires ExactResync(s[total..], tail, false, max)
    ensures ExactAt(s, [Emitted(f)] + tail, j + 1, resync, max)
  {
    OffsetAfter([Emitted(f)], tail, j);
    CandidateShift(s, total, Offset(tail, j), max);
    assert ExactAt(s[total..], tail, j, false, max);
  }

  lemma {:induction false} ParseResyncsExactly(s: seq<byte>, resync: bool, max: nat)
    ensures ExactResync(s, Parse(s, resync, max).items, resync, max)
    decreases |s|, if resync then 1 else 2
  {
    if |s| < HEADER_SIZE {
    } else if resync {
      var k := Scan(s, 0, max);
      if k + HEADER_SIZE <= |s| {
        CandidateShift(s, k, 0, max);
        TakeFrameResyncsExactly(s[k..], true, max);
        DropsThenExact(s, k, TakeFrame(s[k..], max).items, max);
      } else {
        DropsThenExact(s, k, [], max);
        assert Drops(s[..k]) + [] == Drops(s[..k]);
      }
    } else if !Plausible(U32At(s, 0), max) {
      ParseResyncsExactly(s, true, max);
      var items := Parse(s, true, max).items;
      forall i | 0 <= i < |items| ensures ExactAt(s, items, i, false, max) {
        assert ExactAt(s, items, i, true, max);
      }
    } else {
      TakeFrameResyncsExactly(s, false, max);
    }
  }

  lemma {:induction false} TakeFrameResyncsExactly(s: seq<byte>, resync: bool, max: nat)
    requires |s| >= HEADER_SIZE && Plausible(U32At(s, 0), max)
    requires resync ==> Candidate(s, 0, max)
    ensures ExactResync(s, TakeFrame(s, max).items, resync, max)
    decreases |s|, 0
  {
    var total := U32At(s, 0);
    if |s| >= total {
      DecodeWritesBack(s, total);
      TraceOfFrame(Decode(s, total));
      ParseResyncsExactly(s[total..], false, max);
      FrameThenExact(s, total, Decode(s, total), Parse(s[total..], false, max).items, resync, max);
    }
  }

  // --------------------------------------------------------------- round trip

  function EmittedAll(fs: seq<Frame>): (items: seq<Item>)
    ensures |items| == |fs| && forall i :: 0 <= i < |fs| ==> items[i] == Emitted(fs[i])
  {
    seq(|fs|, i requires 0 <= i < |fs| => Emitted(fs[i]))
  }

  lemma {:induction false} FramesOfEmitted(fs: seq<Frame>)
    ensures Frames(EmittedAll(fs)) == fs && DropCount(EmittedAll(fs)) == 0
  {
    if fs != [] {
      assert EmittedAll(fs)[1..] == EmittedAll(fs[1..]);
      FramesOfEmitted(fs[1..]);
    }
  }

  lemma {:induction false} ParseOfFrames(fs: seq<Frame>, max: nat)
    requires forall f :: f in fs ==> Canonical(f, max)
    ensures Parse(Wire(EmittedAll(fs)), false, max) == Parsed(EmittedAll(fs), [], false)
  {
    if fs == [] {
      assert EmittedAll(fs) == [];
    } else {
      var f, tail := fs[0], Wire(EmittedAll(fs[1..]));
      assert EmittedAll(fs)[1..] == EmittedAll(fs[1..]);
      EncodeReadsBack(f, max, tail);
      ParseOfFrames(fs[1..], max);
      var b := ToBytes(f).bytes;
      assert Wire(EmittedAll(fs)) == b + tail;
      assert (b + tail)[|b|..] == tail;
      assert [Emitted(f)] + EmittedAll(fs[1..]) == EmittedAll(fs);
    }
  }

  /** Any canonical frames, written out and split anyhow, come back exactly, nothing dropped. */
  lemma FramesRoundTrip(fs: seq<Frame>, chunks: seq<seq<byte>>, max: nat)
    requires forall f :: f in fs ==> Canonical(f, max)
    requires Flatten(chunks) == Wire(EmittedAll(fs))
    ensures var p := FeedAll(Parsed([], [], false), chunks, max);
            Frames(p.items) == fs && DropCount(p.items) == 0 && p.rest == [] && !p.resync
  {
    var s := Wire(EmittedAll(fs));
    ChunkIndependence(Parsed([], [], false), chunks, max);
    assert [] + s == s;
    ParseOfFrames(fs, max);
    assert [] + EmittedAll(fs) == EmittedAll(fs);
    FramesOfEmitted(fs);
  }

  datatype Request = Request(command: Command, payload: seq<byte>, flags: Option<int>)

  function BuiltFrame(sequence: int, r: Request): Frame {
    var flags := if r.flags.Some? then r.flags.value else if r.command == SETR then 1 else 0;
    Frame(sequence, r.command, flags, r.payload, None)
  }

  /** The frames an encoder starting at `sequence` builds for `requests`. */
  function Built(sequence: int, requests: seq<Request>): (fs: seq<Frame>)
    ensures |fs| == |requests|
    decreases |requests|
  {
    if requests == [] then []
    else [BuiltFrame(sequence, requests[0])] + Built((sequence + 1) % TWO32, requests[1..])
  }

  lemma WrapsOnce(a: int, i: int)
    ensures ((a + 1) % TWO32 + (i - 1)) % TWO32 == (a + i) % TWO32
  {
    var q := (a + 1) / TWO32;
    assert a + i == ((a + 1) % TWO32 + (i - 1)) + q * TWO32;
  }

  lemma {:induction false} SequenceCountsUp(sequence: int, requests: seq<Request>, i: nat)
    requires 0 <= sequence < TWO32 && i < |requests|
    ensures Built(sequence, requests)[i] == BuiltFrame((sequence + i) % TWO32, requests[i])
    decreases i
  {
    if i > 0 {
      SequenceCountsUp((sequence + 1) % TWO32, requests[1..], i - 1);
      WrapsOnce(sequence, i);
    }
  }

  /** What the wire can carry of a frame: its flags modulo 2^32. */
  function Truncated(f: Frame): Frame {
    f.(flags := f.flags % TWO32)
  }

  function TruncatedAll(fs: seq<Frame>): (r: seq<Frame>)
    ensures |r| == |fs| && forall i :: 0 <= i < |fs| ==> r[i] == Truncated(fs[i])
  {
    seq(|fs|, i requires 0 <= i < |fs| => Truncated(fs[i]))
  }

  lemma TruncationOnWire(f: Frame)
    ensures ItemBytes(Emitted(Truncated(f))) == ItemBytes(Emitted(f))
  {
    assert f.flags % TWO32 % TWO32 == f.flags % TWO32;
  }

  lemma WireIgnoresTruncation(fs: seq<Frame>)
    ensures Wire(EmittedAll(fs)) == Wire(EmittedAll(TruncatedAll(fs)))
  {
    forall i | 0 <= i < |fs|
      ensures ItemBytes(EmittedAll(fs)[i]) == ItemBytes(EmittedAll(TruncatedAll(fs))[i])
    {
      TruncationOnWire(fs[i]);
    }
    FlatMapPointwise(ItemBytes, EmittedAll(fs), EmittedAll(TruncatedAll(fs)));
  }

  /**
   Encoder and parser are inverse: whatever known commands are requested, from any
   starting sequence number and through any split of the bytes, the parser returns the
   built frames (flags reduced to 32 bits), numbered upwards modulo 2^32.
   */
  lemma CodecRoundTrip(sequence: int, requests: seq<Request>, chunks: seq<seq<byte>>, max: nat)
    requires 0 <= sequence < TWO32
    requires forall r :: r in requests ==> r.command != UNK && HEADER_SIZE + |r.payload| <= max
                                           && HEADER_SIZE + |r.payload| < TWO32
    requires Flatten(chunks) == Wire(EmittedAll(Built(sequence, requests)))
    ensures var p := FeedAll(Parsed([], [], false), chunks, max);
            && Frames(p.items) == TruncatedAll(Built(sequence, requests))
            && DropCount(p.items) == 0 && p.rest == [] && !p.resync
    ensures forall i :: 0 <= i < |requests| ==>
              Built(sequence, requests)[i].sequence == (sequence + i) % TWO32
  {
    var fs := Built(sequence, requests);
    forall i | 0 <= i < |requests|
      ensures fs[i] == BuiltFrame((sequence + i) % TWO32, requests[i])
    {
      SequenceCountsUp(sequence, requests, i);
    }
    forall f | f in TruncatedAll(fs) ensures Canonical(f, max) {
      var i :| 0 <= i < |fs| && f == Truncated(fs[i]);
      assert requests[i] in requests;
    }
    WireIgnoresTruncation(fs);
    FramesRoundTrip(TruncatedAll(fs), chunks, max);
  }

  // ------------------------------------------ one loop iteration on the trace

  /** `done` items from the bytes already consumed, then whatever `s` still yields. */
  ghost function Ahead(done: seq<Item>, s: seq<byte>, resync: bool, max: nat): Parsed {
    Prepend(done, Parse(s, resync, max))
  }

  /** Nothing is ahead of a settled parser. */
  lemma Waiting(done: seq<Item>, s: seq<byte>, resync: bool, max: nat)
    requires Settled(s, resync, max)
    ensures Ahead(done, s, resync, max) == Parsed(done, s, resync)
  {
    SettledParse(s, resync, max);
    assert done + [] == done;
  }

  lemma StepSearch(done: seq<Item>, s: seq<byte>, max: nat)
    requires |s| >= HEADER_SIZE
    ensures var k := Scan(s, 0, max);
            var more := done + Drops(s[..k]);
            && Frames(more) == Frames(done) && DropCount(more) == DropCount(done) + k
            && Ahead(done, s, true, max) ==
               if k + HEADER_SIZE <= |s| then Ahead(more, s[k..], false, max) else Parsed(more, s[k..], true)
  {
    var k := Scan(s, 0, max);
    TraceOfDrops(s[..k]);
    TraceAppend(done, Drops(s[..k]));
    if k + HEADER_SIZE <= |s| {
      CandidateShift(s, k, 0, max);
      PrependTwice(done, Drops(s[..k]), TakeFrame(s[k..], max));
    }
  }

  lemma StepFrame(done: seq<Item>, s: seq<byte>, max: nat)
    requires |s| >= HEADER_SIZE && Plausible(U32At(s, 0), max) && U32At(s, 0) <= |s|
    ensures var total := U32At(s, 0);
            var more := done + [Emitted(Decode(s, total))];
            && Frames(more) == Frames(done) + [Decode(s, total)] && DropCount(more) == DropCount(done)
            && Ahead(done, s, false, max) == Ahead(more, s[total..], false, max)
  {
    var total := U32At(s, 0);
    var item := [Emitted(Decode(s, total))];
    TraceOfFrame(Decode(s, total));
    TraceAppend(done, item);
    assert Parse(s, false, max) == Prepend(item, Parse(s[total..], false, max));
    PrependTwice(done, item, Parse(s[total..], false, max));
  }

  // ------------------------------------------------------- the stateful objects

  class FrameCodec {
    var nextSequence: int

    ghost predicate Valid() reads this {
      0 <= nextSequence < TWO32
    }

    constructor (sequence: int)
      ensures Valid() && nextSequence == sequence % TWO32
    {
      nextSequence := sequence % TWO32;
    }

    method Build(r: Request) returns (f: Frame)
      requires Valid()
      modifies this
      ensures Valid() && nextSequence == (old(nextSequence) + 1) % TWO32
      ensures Built(old(nextSequence), [r]) == [f]
    {
      var flags := if r.command == SETR then 1 else 0;
      if r.flags.Some? { flags := r.flags.value; }
      f := Frame(nextSequence, r.command, flags, r.payload, None);
      nextSequence := (nextSequence + 1) % TWO32;
    }

    method Encode(r: Request) returns (e: Encoded)
      requires Valid()
      modifies this
      ensures Valid() && nextSequence == (old(nextSequence) + 1) % TWO32
      ensures r.command == UNK ==> e == RawCommandRequired
      ensures r.command != UNK && HEADER_SIZE + |r.payload| < TWO32
              ==> e == Encoded(Wire(EmittedAll(Built(old(nextSequence), [r]))))
      ensures r.command != UNK && HEADER_SIZE + |r.payload| >= TWO32 ==> e == LengthOverflow
    {
      var f := Build(r);
      e := ToBytes(f);
      assert EmittedAll([f]) == [Emitted(f)];
      TraceOfFrame(f);
    }
  }

  class FrameStreamParser {
    const maxFrame: nat
    var buffer: seq<byte>
    var resynchronizing: bool
    var discardedBytes: nat

    ghost predicate Valid() reads this {
      maxFrame >= HEADER_SIZE && Settled(buffer, resynchronizing, maxFrame)
    }

    constructor (max: nat)
      requires max >= HEADER_SIZE
      ensures Valid() && maxFrame == max && buffer == [] && !resynchronizing && discardedBytes == 0
    {
      maxFrame, buffer, resynchronizing, discardedBytes := max, [], false, 0;
    }

    /** The loop of the source computes exactly one `Parse` of the extended buffer. */
    method Feed(data: seq<byte>) returns (frames: seq<Frame>)
      requires Valid()
      modifies this`buffer, this`resynchronizing, this`discardedBytes
      ensures Valid()
      ensures var p := Parse(old(buffer) + data, old(resynchronizing), maxFrame);
              && frames == Frames(p.items) && buffer == p.rest && resynchronizing == p.resync
              && discardedBytes == old(discardedBytes) + DropCount(p.items)
    {
      ghost var whole := Parse(buffer + data, resynchronizing, maxFrame);
      ParseSettles(buffer + data, resynchronizing, maxFrame);
      if |data| > 0 { buffer := buffer + data; } else { assert buffer + data == buffer; }
      frames := [];
      ghost var done: seq<Item> := [];
      assert whole.items == done + whole.items;
      while |buffer| >= HEADER_SIZE
        invariant |buffer| < HEADER_SIZE ==> !resynchronizing || |buffer| == HEADER_SIZE - 1
        invariant whole == Ahead(done, buffer, resynchronizing, maxFrame)
        invariant frames == Frames(done)
        invariant discardedBytes == old(discardedBytes) + DropCount(done)
        decreases |buffer|, if resynchronizing then 1 else 2
      {
        if resynchronizing {
          var found;
          found, done := Search(done);
          if !found {
            Waiting(done, buffer, true, maxFrame);
            return;
          }
        }
        var total := U32At(buffer, 0);
        if !Plausible(total, maxFrame) {
          resynchronizing := true;
          continue;
        }
        if |buffer| < total { break; }
        StepFrame(done, buffer, maxFrame);
        done := done + [Emitted(Decode(buffer, total))];
        frames := frames + [Decode(buffer, total)];
        buffer := buffer[total..];
      }
      Waiting(done, buffer, resynchronizing, maxFrame);
    }

    /** The search for the next frame, accounted for in the trace. */
    method Search(ghost done: seq<Item>) returns (found: bool, ghost more: seq<Item>)
      requires maxFrame >= HEADER_SIZE && |buffer| >= HEADER_SIZE && resynchronizing
      modifies this`buffer, this`resynchronizing, this`discardedBytes
      ensures Ahead(done, old(buffer), true, maxFrame) == Ahead(more, buffer, !found, maxFrame)
      ensures Frames(more) == Frames(done)
      ensures discardedBytes - old(discardedBytes) == DropCount(more) - DropCount(done)
      ensures resynchronizing == !found && |buffer| <= |old(buffer)|
      ensures if found then |buffer| >= HEADER_SIZE && Plausible(U32At(buffer, 0), maxFrame)
              else Settled(buffer, true, maxFrame)
    {
      ghost var k := Scan(buffer, 0, maxFrame);
      StepSearch(done, buffer, maxFrame);
      more := done + Drops(buffer[..k]);
      if k + HEADER_SIZE <= |buffer| { CandidateShift(buffer, k, 0, maxFrame); }
      found := Resync();
      resynchronizing := !found;
      if !found { Waiting(more, buffer, true, maxFrame); }
    }

    method Resync() returns (found: bool)
      requires |buffer| >= HEADER_SIZE
      modifies this`buffer, this`discardedBytes
      ensures var k := Scan(old(buffer), 0, maxFrame);
              && buffer == old(buffer)[k..] && discardedBytes == old(discardedBytes) + k
              && found == (k + HEADER_SIZE <= |old(buffer)|)
    {
      var offset := 0;
      var searchLimit := if |buffer| - HEADER_SIZE + 1 > 1 then |buffer| - HEADER_SIZE + 1 else 1;
      while offset < searchLimit
        invariant 0 <= offset <= searchLimit
        invariant forall j :: 0 <= j < offset ==> !Candidate(buffer, j, maxFrame)
        invariant buffer == old(buffer) && discardedBytes == old(discardedBytes)
      {
        if |buffer| - offset < HEADER_SIZE { break; }
        var magic := buffer[offset + 8..offset + 12];
        if Plausible(U32At(buffer, offset), maxFrame) && Known(magic) {
          ScanUnique(buffer, offset, maxFrame);
          buffer := buffer[offset..];
          discardedBytes := discardedBytes + offset;
          return true;
        }
        offset := offset + 1;
      }
      var discard := if |buffer| - (HEADER_SIZE - 1) > 1 then |buffer| - (HEADER_SIZE - 1) else 1;
      ScanUnique(buffer, discard, maxFrame);
      buffer := buffer[discard..];
      discardedBytes := discardedBytes + discard;
      return false;
    }
  }
}
