/**
 Managed blocks in configuration files (packaging_tools/desktop_setup.py): Python's
 `count`, `replace` and `in` on byte strings, and what they make of a block that was
 appended to a file. Bytes are characters here.
 */
module ManagedText {
  import opened Bytes

  const BEGIN := "\n# BEGIN PanelBridge managed output\n"
  const END := "# END PanelBridge managed output\n"

  // ------------------------------------------------------- searching in texts

  predicate Occurs(text: string, pattern: string, i: int) {
    0 <= i && i + |pattern| <= |text| && text[i..i + |pattern|] == pattern
  }

  /** The first occurrence. */
  function Find(text: string, pattern: string): (r: Option<nat>)
    requires pattern != ""
    ensures r.Some? ==> r.value + |pattern| <= |text|
    decreases |text|
  {
    if |text| < |pattern| then None
    else if text[..|pattern|] == pattern then Some(0)
    else match Find(text[1..], pattern) case None => None case Some(i) => Some(i + 1)
  }

  /** `data.count(pattern)`: occurrences that do not overlap, from the left. */
  function Count(text: string, pattern: string): nat
    requires pattern != ""
    decreases |text|
  {
    match Find(text, pattern)
    case None => 0
    case Some(i) => 1 + Count(text[i + |pattern|..], pattern)
  }

  /** `data.replace(pattern, b"", 1)` */
  function RemoveFirst(text: string, pattern: string): string
    requires pattern != ""
  {
    match Find(text, pattern)
    case None => text
    case Some(i) => text[..i] + text[i + |pattern|..]
  }

  lemma OccursShift(text: string, pattern: string, n: nat, i: int)
    requires n <= |text| && i >= 0
    ensures Occurs(text[n..], pattern, i) <==> Occurs(text, pattern, n + i)
  {
    if i + |pattern| + n <= |text| { assert text[n..][i..i + |pattern|] == text[n + i..n + i + |pattern|]; }
  }

  lemma {:induction false} FindIsFirst(text: string, pattern: string)
    requires pattern != ""
    ensures Find(text, pattern).Some? ==> Occurs(text, pattern, Find(text, pattern).value)
    ensures forall j :: Occurs(text, pattern, j) ==> Find(text, pattern).Some? && Find(text, pattern).value <= j
    decreases |text|
  {
    if |text| >= |pattern| && text[..|pattern|] != pattern {
      FindIsFirst(text[1..], pattern);
      var f := Find(text[1..], pattern);
      if f.Some? { OccursShift(text, pattern, 1, f.value); }
      forall j | Occurs(text, pattern, j) ensures j >= 1 && Occurs(text[1..], pattern, j - 1) {
        assert j != 0;
        OccursShift(text, pattern, 1, j - 1);
      }
    }
  }

  lemma CountNone(text: string, pattern: string)
    requires pattern != ""
    ensures Count(text, pattern) == 0 <==> forall i :: !Occurs(text, pattern, i)
  {
    FindIsFirst(text, pattern);
  }

  predicate Later(text: string, pattern: string, n: nat) {
    exists j :: n <= j <= |text| && Occurs(text, pattern, j)
  }

  lemma LaterRest(text: string, pattern: string, n: nat)
    requires n <= |text|
    ensures (forall j :: !Occurs(text[n..], pattern, j)) <==> !Later(text, pattern, n)
  {
    if j :| Occurs(text[n..], pattern, j) { OccursShift(text, pattern, n, j); }
    if j :| n <= j <= |text| && Occurs(text, pattern, j) { OccursShift(text, pattern, n, j - n); }
  }

  /** From the first occurrence on, counting one means: no other that does not overlap it. */
  lemma CountFirst(text: string, pattern: string, i: nat)
    requires pattern != "" && Occurs(text, pattern, i) && forall j :: Occurs(text, pattern, j) ==> i <= j
    ensures Count(text, pattern) == 1 <==> !Later(text, pattern, i + |pattern|)
  {
    FindIsFirst(text, pattern);
    CountNone(text[i + |pattern|..], pattern);
    LaterRest(text, pattern, i + |pattern|);
  }

  /** Two occurrences that do not overlap count as more than one. */
  lemma CountTwo(text: string, pattern: string, i: nat, j: nat)
    requires pattern != "" && Occurs(text, pattern, i) && Occurs(text, pattern, j) && i + |pattern| <= j
    ensures Count(text, pattern) != 1
  {
    FindIsFirst(text, pattern);
    CountFirst(text, pattern, Find(text, pattern).value);
  }

  // ------------------------------------------------------------------ blocks

  /** A managed block; the generated bodies contain no `#`. */
  function Block(body: string): string {
    BEGIN + body + END
  }

  predicate Body(body: string) {
    '#' !in body
  }

  /** The marked part of the text is the block, the whole block, and there is no other mark. */
  predicate Managed(text: string, block: string)
    requires block != ""
  {
    Count(text, block) == Count(text, BEGIN) == Count(text, END) == 1
  }

  predicate EndsWith(text: string, suffix: string) {
    |suffix| <= |text| && text[|text| - |suffix|..] == suffix
  }

  /** The marks hold one `#` each, and newlines only at their ends. */
  lemma EndMark(k: nat)
    ensures |END| == 33 && END[0] == '#' && END[2] == 'E' && END[32] == '\n'
    ensures 0 < k < 33 ==> END[k] != '#'
    ensures k < 32 ==> END[k] != '\n'
  {
  }

  lemma BeginMark(k: nat)
    ensures |BEGIN| == 36 && BEGIN[0] == '\n' && BEGIN[1] == '#' && BEGIN[3] == 'B' && BEGIN[35] == '\n'
    ensures k < 36 && k != 1 ==> BEGIN[k] != '#'
    ensures 0 < k < 35 ==> BEGIN[k] != '\n'
  {
  }

  lemma OccursChar(text: string, pattern: string, i: int, k: nat)
    requires Occurs(text, pattern, i) && k < |pattern|
    ensures text[i + k] == pattern[k]
  {
    assert text[i..i + |pattern|][k] == text[i + k];
  }

  /** END has no proper border, so its occurrences never overlap. */
  lemma EndsApart(text: string, i: int, j: int)
    requires Occurs(text, END, i) && Occurs(text, END, j) && i < j
    ensures i + |END| <= j
  {
    EndMark(0);
    if j < i + |END| {
      OccursChar(text, END, i, j - i);
      OccursChar(text, END, j, 0);
      EndMark(j - i);
    }
  }

  lemma OneEnd(text: string, i: int, j: int)
    requires Count(text, END) == 1 && Occurs(text, END, i) && Occurs(text, END, j)
    ensures i == j
  {
    if i < j {
      EndsApart(text, i, j);
      CountTwo(text, END, i, j);
    } else if j < i {
      EndsApart(text, j, i);
      CountTwo(text, END, j, i);
    }
  }

  /** A block ends in END. */
  lemma BlockEnd(text: string, block: string, i: int)
    requires EndsWith(block, END) && Occurs(text, block, i)
    ensures Occurs(text, END, i + |block| - |END|)
  {
    assert text[i..i + |block|][|block| - |END|..] == text[i + |block| - |END|..i + |block|];
  }

  /**
   Undoing keeps every edit: from any text around a block that counts as managed, removing
   the block leaves what stands before it and after it.
   */
  lemma RemovalKeepsEdits(before: string, block: string, after: string)
    requires EndsWith(block, END) && Managed(before + block + after, block)
    ensures RemoveFirst(before + block + after, block) == before + after
  {
    var text := before + block + after;
    assert text[|before|..|before| + |block|] == block;
    assert Occurs(text, block, |before|);
    FindIsFirst(text, block);
    var i := Find(text, block).value;
    BlockEnd(text, block, |before|);
    BlockEnd(text, block, i);
    OneEnd(text, i + |block| - |END|, |before| + |block| - |END|);
    assert text[..i] == before && text[i + |block|..] == after;
  }

  // ---------------------------------------------------------- appended blocks

  /** What `_item` demands of the original: no mark in it. */
  predicate Unmarked(before: string) {
    Find(before, BEGIN).None? && Find(before, END).None?
  }

  /** The original ends in END but for the newline, which the block brings along. */
  predicate Straddles(before: string) {
    EndsWith(before, END[..32])
  }

  lemma BlockAt(body: string, k: nat)
    requires k < |Block(body)|
    ensures Block(body)[k] == if k < |BEGIN| then BEGIN[k]
                              else if k < |BEGIN| + |body| then body[k - |BEGIN|]
                              else END[k - |BEGIN| - |body|]
  {
  }

  /** The `#` characters of a block are those of its marks. */
  lemma BlockHash(body: string, k: nat)
    requires Body(body) && k < |Block(body)| && Block(body)[k] == '#'
    ensures k == 1 || k == |BEGIN| + |body|
  {
    BeginMark(k);
    BlockAt(body, k);
    if k >= |BEGIN| + |body| { EndMark(k - |BEGIN| - |body|); }
  }

  lemma OccursWithin(text: string, rest: string, pattern: string, j: int)
    requires j + |pattern| <= |text|
    ensures Occurs(text + rest, pattern, j) == Occurs(text, pattern, j)
  {
    if j >= 0 { assert (text + rest)[j..j + |pattern|] == text[j..j + |pattern|]; }
  }

  /** A mark of the whole text that starts in the original reaches into the block. */
  lemma Beyond(before: string, rest: string, mark: string, j: int)
    requires mark != "" && Find(before, mark).None? && Occurs(before + rest, mark, j)
    ensures j + |mark| > |before|
  {
    if j + |mark| <= |before| {
      OccursWithin(before, rest, mark, j);
      FindIsFirst(before, mark);
    }
  }

  /** An END that begins in `before` and lacks only its last character there. */
  lemma StraddlesAt(before: string, rest: string, j: int)
    requires Occurs(before + rest, END, j) && j == |before| - 32
    ensures Straddles(before)
  {
    EndMark(0);
    assert before[j..] == (before + rest)[j..j + |END|][..32];
  }

  /** Where END occurs in a text with a block appended. */
  lemma AppendedEnds(before: string, body: string, j: int)
    requires Unmarked(before) && Body(body) && Occurs(before + Block(body), END, j)
    ensures j == |before| + |BEGIN| + |body| || (j == |before| - 32 && Straddles(before))
  {
    var text := before + Block(body);
    EndMark(0);
    BeginMark(0);
    Beyond(before, Block(body), END, j);
    if j < |before| {
      OccursChar(text, END, j, |before| - j);
      EndMark(|before| - j);
      BlockAt(body, 0);
      StraddlesAt(before, Block(body), j);
    } else {
      OccursChar(text, END, j, 0);
      OccursChar(text, END, j, 2);
      BlockHash(body, j - |before|);
      BlockAt(body, 3);
    }
  }

  lemma AppendedEndsHere(before: string, body: string)
    ensures Occurs(before + Block(body), END, |before| + |BEGIN| + |body|)
    ensures Straddles(before) ==> Occurs(before + Block(body), END, |before| - 32)
  {
    var text := before + Block(body);
    assert text[|before| + |BEGIN| + |body|..|before| + |BEGIN| + |body| + |END|] == END;
    if Straddles(before) {
      EndMark(0);
      BeginMark(0);
      var i := |before| - 32;
      assert text[i..i + |END|] == before[i..] + [BEGIN[0]];
      assert END == END[..32] + [END[32]];
    }
  }

  /** Where BEGIN occurs: where the block starts, and once overlapping it if the original ends that way. */
  lemma AppendedBegins(before: string, body: string, j: int)
    requires Unmarked(before) && Body(body) && Occurs(before + Block(body), BEGIN, j)
    ensures j == |before| || j == |before| - 35
  {
    var text := before + Block(body);
    BeginMark(0);
    EndMark(0);
    Beyond(before, Block(body), BEGIN, j);
    if j < |before| {
      OccursChar(text, BEGIN, j, |before| - j);
      BeginMark(|before| - j);
      BlockAt(body, 0);
    } else {
      OccursChar(text, BEGIN, j, 1);
      OccursChar(text, BEGIN, j, 3);
      BlockHash(body, j + 1 - |before|);
      BlockAt(body, |BEGIN| + |body| + 2);
    }
  }

  lemma AppendedBegin(before: string, body: string)
    requires Unmarked(before) && Body(body)
    ensures Count(before + Block(body), BEGIN) == 1
  {
    var text := before + Block(body);
    BeginMark(0);
    assert text[|before|..|before| + |BEGIN|] == BEGIN;
    var first := if Occurs(text, BEGIN, |before| - 35) then |before| - 35 else |before|;
    assert Occurs(text, BEGIN, first);
    forall j | Occurs(text, BEGIN, j) ensures first <= j < first + |BEGIN| { AppendedBegins(before, body, j); }
    CountFirst(text, BEGIN, first);
  }

  lemma OccursPrefix(text: string, a: string, b: string, j: int)
    requires Occurs(text, a + b, j)
    ensures Occurs(text, a, j)
  {
    assert text[j..j + |a + b|][..|a|] == text[j..j + |a|];
    assert (a + b)[..|a|] == a;
  }

  /** Where a whole block occurs, so do its two marks. */
  lemma BlockMarks(text: string, body: string, j: int)
    requires Occurs(text, Block(body), j)
    ensures Occurs(text, BEGIN, j) && Occurs(text, END, j + |BEGIN| + |body|)
  {
    assert Block(body) == BEGIN + (body + END);
    OccursPrefix(text, BEGIN, body + END, j);
    assert EndsWith(Block(body), END);
    BlockEnd(text, Block(body), j);
  }

  lemma BlockOccurs(before: string, body: string, j: int)
    requires Unmarked(before) && Body(body) && Occurs(before + Block(body), Block(body), j)
    ensures j == |before|
  {
    BlockMarks(before + Block(body), body, j);
    AppendedBegins(before, body, j);
    AppendedEnds(before, body, j + |BEGIN| + |body|);
    BeginMark(0);
    EndMark(0);
  }

  lemma AppendedBlock(before: string, body: string)
    requires Unmarked(before) && Body(body)
    ensures Count(before + Block(body), Block(body)) == 1
  {
    var text, block := before + Block(body), Block(body);
    EndMark(0);
    BeginMark(0);
    assert text[|before|..|before| + |block|] == block;
    forall j | Occurs(text, block, j) ensures j == |before| { BlockOccurs(before, body, j); }
    CountFirst(text, block, |before|);
  }

  lemma AppendedEndCount(before: string, body: string)
    requires Unmarked(before) && Body(body)
    ensures Count(before + Block(body), END) == 1 <==> !Straddles(before)
  {
    var text, last := before + Block(body), |before| + |BEGIN| + |body|;
    EndMark(0);
    AppendedEndsHere(before, body);
    if Straddles(before) {
      CountTwo(text, END, |before| - 32, last);
    } else {
      forall j | Occurs(text, END, j) ensures j == last { AppendedEnds(before, body, j); }
      CountFirst(text, END, last);
    }
  }

  /**
   A block just appended counts as managed, so that removing it gives the original back,
   if and only if the original does not end in END without its newline.
   */
  lemma AppendedIsManaged(before: string, body: string)
    requires Unmarked(before) && Body(body)
    ensures Managed(before + Block(body), Block(body)) <==> !Straddles(before)
    ensures !Straddles(before) ==> RemoveFirst(before + Block(body), Block(body)) == before
  {
    var text := before + Block(body);
    AppendedBegin(before, body);
    AppendedBlock(before, body);
    AppendedEndCount(before, body);
    if Managed(text, Block(body)) {
      assert text + "" == text && before + "" == before;
      assert EndsWith(Block(body), END);
      RemovalKeepsEdits(before, Block(body), "");
    }
  }

  /** A block alone holds each mark once. */
  lemma BlockCounts(body: string)
    requires Body(body)
    ensures Count(Block(body), BEGIN) == 1 == Count(Block(body), END)
  {
    assert "" + Block(body) == Block(body);
    EndMark(0);
    AppendedBegin("", body);
    AppendedEndCount("", body);
  }

  /** An original that install accepts and uninstall then refuses to restore. */
  lemma StraddlingExample() returns (before: string)
    ensures Unmarked(before) && Straddles(before)
    ensures !Managed(before + Block("x\n"), Block("x\n"))
  {
    before := END[..32];
    EndMark(0);
    BeginMark(0);
    assert before[0..] == before;
    AppendedIsManaged(before, "x\n");
  }
}
