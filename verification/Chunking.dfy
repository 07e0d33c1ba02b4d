// split_on_paragraphs: pack paragraphs greedily into chunks of at most maxLen
// characters, cutting up a paragraph that is longer than that.
module Chunking {
  import opened Text

  // ----- Specification -----

  // The text current would grow to if para joined it.
  function Candidate(current: string, para: string): string {
    if current != "" then LStripNewlines(current + BLANK_LINE + para) else para
  }

  // Emit current, unless it is empty, before the later chunks.
  function Flush(current: string, later: seq<string>): seq<string> {
    if current != "" then [current] + later else later
  }

  // The chunks still to come when paras are unread and current is open.
  function Pack(paras: seq<string>, current: string, maxLen: nat): seq<string>
    requires maxLen >= 1
    decreases |paras|, 0
  {
    if paras == [] then Flush(current, [])
    else
      var para, candidate := paras[0], Candidate(current, paras[0]);
      if |candidate| <= maxLen then Pack(paras[1..], candidate, maxLen)
      else if |para| > maxLen then Flush(current, CutUp(para, paras[1..], maxLen))
      else Flush(current, Pack(paras[1..], para, maxLen))
  }

  // The chunks still to come while an oversized paragraph is being cut up.
  function CutUp(para: string, paras: seq<string>, maxLen: nat): seq<string>
    requires maxLen >= 1
    decreases |paras|, |para| + 1
  {
    if |para| <= maxLen then [para] + Pack(paras, "", maxLen)
    else [para[..maxLen]] + CutUp(para[maxLen..], paras, maxLen)
  }

  function Chunks(text: string, maxLen: nat): seq<string>
    requires maxLen >= 1
  {
    if |text| <= maxLen then [text]
    else
      var packed := Pack(SplitParagraphs(text), "", maxLen);
      if packed == [] then [text[..maxLen]] else packed
  }

  // ----- Implementation -----

  method SplitOnParagraphs(text: string, maxLen: nat) returns (chunks: seq<string>)
    requires maxLen >= 1
    ensures chunks == Chunks(text, maxLen)
  {
    if |text| <= maxLen {
      return [text];
    }
    chunks := [];
    var paragraphs := SplitParagraphs(text);
    var current := "";
    for n := 0 to |paragraphs|
      invariant chunks + Pack(paragraphs[n..], current, maxLen) == Pack(paragraphs, "", maxLen)
    {
      var para := paragraphs[n];
      ghost var rest := paragraphs[n + 1..];
      assert paragraphs[n..] == [para] + rest;
      var candidate := if current != "" then LStripNewlines(current + BLANK_LINE + para) else para;
      if |candidate| <= maxLen {
        current := candidate;
      } else {
        ghost var later := if |para| > maxLen then CutUp(para, rest, maxLen) else Pack(rest, para, maxLen);
        AppendFirst(chunks, current, later);
        if current != "" {
          chunks := chunks + [current];
        }
        if |para| > maxLen {
          chunks := AppendPieces(chunks, para, maxLen, rest);
          current := "";
        } else {
          current := para;
        }
      }
    }
    assert paragraphs[|paragraphs|..] == [];
    AppendFirst(chunks, current, []);
    if current != "" {
      chunks := chunks + [current];
    }
    assert chunks + [] == chunks;
    if chunks == [] {
      chunks := [text[..maxLen]];
    }
  }

  // The inner loop: para[0:maxLen], para[maxLen:2*maxLen], ... are appended.
  method AppendPieces(done: seq<string>, para: string, maxLen: nat, ghost rest: seq<string>)
    returns (chunks: seq<string>)
    requires 1 <= maxLen < |para|
    ensures chunks + Pack(rest, "", maxLen) == done + CutUp(para, rest, maxLen)
  {
    hide *;
    chunks := done;
    assert para[0..] == para;
    var i := 0;
    while i < |para|
      invariant 0 <= i
      invariant chunks + (if i < |para| then CutUp(para[i..], rest, maxLen) else Pack(rest, "", maxLen))
             == done + CutUp(para, rest, maxLen)
      decreases |para| - i
    {
      var end := if i + maxLen <= |para| then i + maxLen else |para|;
      CutUpStep(chunks, para, i, rest, maxLen);
      chunks := chunks + [para[i..end]];
      i := i + maxLen;
    }
  }

  lemma AppendFirst(done: seq<string>, current: string, later: seq<string>)
    ensures done + Flush(current, later) == (if current != "" then done + [current] else done) + later
  {
  }

  // One turn of the loop that cuts up a paragraph.
  lemma CutUpStep(done: seq<string>, para: string, i: nat, rest: seq<string>, maxLen: nat)
    requires maxLen >= 1 && i < |para|
    ensures var end := if i + maxLen <= |para| then i + maxLen else |para|;
            done + CutUp(para[i..], rest, maxLen) == done + [para[i..end]] +
            if i + maxLen < |para| then CutUp(para[i + maxLen..], rest, maxLen) else Pack(rest, "", maxLen)
  {
    var tail := para[i..];
    if i + maxLen < |para| {
      assert tail[maxLen..] == para[i + maxLen..] && tail[..maxLen] == para[i..i + maxLen];
    } else {
      assert tail == para[i..|para|];
    }
  }

  // ----- Losslessness -----

  // chunks are the slices of text[from..] that start at the positions at, in
  // order and without overlap, and only newlines lie outside them.
  predicate Tiles(text: string, from: nat, chunks: seq<string>, at: seq<nat>)
    requires |at| == |chunks|
    decreases |chunks|
  {
    if chunks == [] then from <= |text| && OnlyNewlines(text[from..])
    else
      && from <= at[0] <= at[0] + |chunks[0]| <= |text|
      && OnlyNewlines(text[from..at[0]])
      && text[at[0]..at[0] + |chunks[0]|] == chunks[0]
      && Tiles(text, at[0] + |chunks[0]|, chunks[1..], at[1..])
  }

  function FlushAt(current: string, a: nat, later: seq<nat>): seq<nat> {
    if current != "" then [a] + later else later
  }

  // Where the chunks of Pack start, when current starts at a and the next
  // paragraph at q.
  function PackAt(paras: seq<string>, current: string, maxLen: nat, a: nat, q: nat): (at: seq<nat>)
    requires maxLen >= 1
    ensures |at| == |Pack(paras, current, maxLen)|
    decreases |paras|, 0
  {
    if paras == [] then FlushAt(current, a, [])
    else
      var para, candidate := paras[0], Candidate(current, paras[0]);
      var end, next := q + |para|, q + |para| + 2;
      if |candidate| <= maxLen then
        PackAt(paras[1..], candidate, maxLen, if end >= |candidate| then end - |candidate| else 0, next)
      else if |para| > maxLen then FlushAt(current, a, CutUpAt(para, paras[1..], maxLen, q))
      else FlushAt(current, a, PackAt(paras[1..], para, maxLen, q, next))
  }

  function CutUpAt(para: string, paras: seq<string>, maxLen: nat, q: nat): (at: seq<nat>)
    requires maxLen >= 1
    ensures |at| == |CutUp(para, paras, maxLen)|
    decreases |paras|, |para| + 1
  {
    if |para| <= maxLen then [q] + PackAt(paras, "", maxLen, q + |para|, q + |para| + 2)
    else [q] + CutUpAt(para[maxLen..], paras, maxLen, q + maxLen)
  }

  function ChunksAt(text: string, maxLen: nat): (at: seq<nat>)
    requires maxLen >= 1
    ensures |at| == |Chunks(text, maxLen)|
  {
    if |text| <= maxLen then [0]
    else
      var packed := PackAt(SplitParagraphs(text), "", maxLen, 0, 0);
      if packed == [] then [0] else packed
  }

  // The unread paragraphs start at q; text[p..q] is the separator before them.
  predicate Unread(text: string, paras: seq<string>, p: nat, q: nat) {
    if paras == [] then p == |text|
    else p <= q <= |text| && text[q..] == Join(paras) && OnlyNewlines(text[p..q])
  }

  predicate SliceAt(text: string, a: nat, s: string) {
    a + |s| <= |text| && text[a..a + |s|] == s
  }

  // The reader's position: current is text[a..p], and the unread paragraphs
  // start at q, which is two past p when current is open.
  predicate Reading(text: string, paras: seq<string>, current: string, a: nat, q: nat) {
    && SliceAt(text, a, current)
    && Unread(text, paras, a + |current|, q)
    && (paras != [] && current != "" ==> q == a + |current| + 2)
  }

  lemma TilesCons(text: string, from: nat, s: nat, chunk: string, ys: seq<string>, at: seq<nat>)
    requires |at| == |ys| && from <= s && SliceAt(text, s, chunk) && OnlyNewlines(text[from..s])
    requires Tiles(text, s + |chunk|, ys, at)
    ensures Tiles(text, from, [chunk] + ys, [s] + at)
  {
    assert ([chunk] + ys)[1..] == ys && ([s] + at)[1..] == at;
  }

  // The gap in front of the first chunk may grow by newlines.
  lemma TilesEarlier(text: string, a: nat, b: nat, ys: seq<string>, at: seq<nat>)
    requires |at| == |ys| && a <= b <= |text| && OnlyNewlines(text[a..b])
    requires Tiles(text, b, ys, at)
    ensures Tiles(text, a, ys, at)
  {
    var end := if ys == [] then |text| else at[0];
    assert text[a..end] == text[a..b] + text[b..end];
    assert text[a..] == text[a..|text|] && text[b..] == text[b..|text|];
  }

  lemma TilesFlush(text: string, current: string, a: nat, mid: nat, ys: seq<string>, at: seq<nat>)
    requires |at| == |ys| && SliceAt(text, a, current)
    requires a + |current| <= mid <= |text| && OnlyNewlines(text[a + |current|..mid])
    requires Tiles(text, mid, ys, at)
    ensures |FlushAt(current, a, at)| == |Flush(current, ys)|
    ensures Tiles(text, a, Flush(current, ys), FlushAt(current, a, at))
  {
    TilesEarlier(text, a + |current|, mid, ys, at);
    if current != "" {
      TilesHere(text, a, current, ys, at);
    }
  }

  // Reading one paragraph: where it lies, and what is unread afterwards.
  lemma ReadParagraph(text: string, paras: seq<string>, p: nat, q: nat)
    requires paras != [] && Unread(text, paras, p, q)
    ensures SliceAt(text, q, paras[0])
    ensures Unread(text, paras[1..], q + |paras[0]|, q + |paras[0]| + 2)
  {
    var para, rest := paras[0], paras[1..];
    var end := q + |para|;
    var joined := text[q..];
    if rest == [] {
      assert joined == para;
      assert text[q..end] == joined[..|para|];
    } else {
      JoinCons(para, rest);
      assert [para] + rest == paras;
      assert joined[..|para|] == para && joined[|para|..|para| + 2] == BLANK_LINE && joined[|para| + 2..] == Join(rest);
      assert text[q..end] == joined[..|para|] && text[end..end + 2] == joined[|para|..|para| + 2];
      assert text[end + 2..] == joined[|para| + 2..];
    }
  }

  // Joining a paragraph to current only gives up newlines at the front.
  lemma JoinParagraph(text: string, current: string, a: nat, q: nat, para: string)
    requires SliceAt(text, a, current) && SliceAt(text, q, para)
    requires a + |current| <= q && OnlyNewlines(text[a + |current|..q])
    requires current != "" ==> q == a + |current| + 2
    ensures var candidate := Candidate(current, para);
            var b := q + |para| - |candidate|;
            a <= b && OnlyNewlines(text[a..b]) && SliceAt(text, b, candidate)
  {
    if current != "" {
      var raw, end, gap := current + BLANK_LINE + para, q + |para|, text[a + |current|..q];
      assert gap == BLANK_LINE by {
        assert gap[0] == '\n' && gap[1] == '\n';
      }
      assert text[a..end] == text[a..a + |current|] + gap + text[q..end];
      LStripDrops(raw);
      var k := LeadingNewlines(raw);
      assert text[a + k..end] == raw[k..] && text[a..a + k] == raw[..k];
    } else {
      assert Candidate(current, para) == para;
    }
  }

  lemma {:induction false} PackTiles(text: string, paras: seq<string>, current: string, maxLen: nat, a: nat, q: nat,
                                     chunks: seq<string>, at: seq<nat>)
    requires maxLen >= 1 && Reading(text, paras, current, a, q)
    requires chunks == Pack(paras, current, maxLen) && at == PackAt(paras, current, maxLen, a, q)
    ensures Tiles(text, a, chunks, at)
    decreases |paras|, 0
  {
    if paras == [] {
      assert text[|text|..] == "";
      TilesFlush(text, current, a, |text|, [], []);
    } else {
      ReadParagraph(text, paras, a + |current|, q);
      if |Candidate(current, paras[0])| <= maxLen {
        GrowTiles(text, paras, current, maxLen, a, q, chunks, at);
      } else {
        OverflowTiles(text, paras, current, maxLen, a, q, chunks, at);
      }
    }
  }

  lemma GrowReading(text: string, paras: seq<string>, current: string, a: nat, q: nat)
    requires paras != [] && Reading(text, paras, current, a, q)
    requires SliceAt(text, q, paras[0]) && Unread(text, paras[1..], q + |paras[0]|, q + |paras[0]| + 2)
    ensures var para, candidate := paras[0], Candidate(current, paras[0]);
            var b := q + |para| - |candidate|;
            a <= b && OnlyNewlines(text[a..b]) && Reading(text, paras[1..], candidate, b, q + |para| + 2)
  {
    JoinParagraph(text, current, a, q, paras[0]);
  }

  lemma PackGrows(paras: seq<string>, current: string, maxLen: nat, a: nat, q: nat)
    requires maxLen >= 1 && paras != []
    requires |Candidate(current, paras[0])| <= maxLen && |Candidate(current, paras[0])| <= q + |paras[0]|
    ensures Pack(paras, current, maxLen) == Pack(paras[1..], Candidate(current, paras[0]), maxLen)
    ensures PackAt(paras, current, maxLen, a, q) == PackAt(paras[1..], Candidate(current, paras[0]), maxLen,
                                                           q + |paras[0]| - |Candidate(current, paras[0])|,
                                                           q + |paras[0]| + 2)
  {
  }

  // The paragraph joins current.
  lemma {:induction false} GrowTiles(text: string, paras: seq<string>, current: string, maxLen: nat, a: nat, q: nat,
                                     chunks: seq<string>, at: seq<nat>)
    requires maxLen >= 1 && paras != [] && Reading(text, paras, current, a, q)
    requires SliceAt(text, q, paras[0]) && Unread(text, paras[1..], q + |paras[0]|, q + |paras[0]| + 2)
    requires |Candidate(current, paras[0])| <= maxLen
    requires chunks == Pack(paras, current, maxLen) && at == PackAt(paras, current, maxLen, a, q)
    ensures Tiles(text, a, chunks, at)
    decreases |paras| - 1, 1
  {
    hide *;
    var para, candidate, rest := paras[0], Candidate(current, paras[0]), paras[1..];
    GrowReading(text, paras, current, a, q);
    var b, next := q + |para| - |candidate|, q + |para| + 2;
    PackGrows(paras, current, maxLen, a, q);
    PackTiles(text, rest, candidate, maxLen, b, next, chunks, at);
    TilesEarlier(text, a, b, chunks, at);
  }

  // The paragraph does not join current, which is flushed.
  lemma {:induction false} OverflowTiles(text: string, paras: seq<string>, current: string, maxLen: nat, a: nat, q: nat,
                                         chunks: seq<string>, at: seq<nat>)
    requires maxLen >= 1 && paras != [] && Reading(text, paras, current, a, q)
    requires SliceAt(text, q, paras[0]) && Unread(text, paras[1..], q + |paras[0]|, q + |paras[0]| + 2)
    requires |Candidate(current, paras[0])| > maxLen
    requires chunks == Pack(paras, current, maxLen) && at == PackAt(paras, current, maxLen, a, q)
    ensures Tiles(text, a, chunks, at)
    decreases |paras| - 1, |paras[0]| + 2
  {
    hide *;
    var para, rest := paras[0], paras[1..];
    var next := q + |para| + 2;
    PackOverflows(paras, current, maxLen, a, q);
    UnreadGap(text, paras, current, a, q);
    if |para| > maxLen {
      var later, starts := CutUp(para, rest, maxLen), CutUpAt(para, rest, maxLen, q);
      CutUpTiles(text, para, rest, maxLen, q, later, starts);
      TilesFlush(text, current, a, q, later, starts);
    } else {
      var later, starts := Pack(rest, para, maxLen), PackAt(rest, para, maxLen, q, next);
      StartReading(text, rest, para, q);
      PackTiles(text, rest, para, maxLen, q, next, later, starts);
      TilesFlush(text, current, a, q, later, starts);
    }
  }

  lemma PackOverflows(paras: seq<string>, current: string, maxLen: nat, a: nat, q: nat)
    requires maxLen >= 1 && paras != [] && |Candidate(current, paras[0])| > maxLen
    ensures var para, rest, next := paras[0], paras[1..], q + |paras[0]| + 2;
            var later := if |para| > maxLen then CutUp(para, rest, maxLen) else Pack(rest, para, maxLen);
            var starts :=
              if |para| > maxLen then CutUpAt(para, rest, maxLen, q) else PackAt(rest, para, maxLen, q, next);
            && Pack(paras, current, maxLen) == Flush(current, later)
            && PackAt(paras, current, maxLen, a, q) == FlushAt(current, a, starts)
  {
  }

  lemma UnreadGap(text: string, paras: seq<string>, current: string, a: nat, q: nat)
    requires paras != [] && Reading(text, paras, current, a, q)
    ensures SliceAt(text, a, current) && a + |current| <= q <= |text| && OnlyNewlines(text[a + |current|..q])
  {
  }

  // A paragraph just read is the new current.
  lemma StartReading(text: string, rest: seq<string>, para: string, q: nat)
    requires SliceAt(text, q, para) && Unread(text, rest, q + |para|, q + |para| + 2)
    ensures Reading(text, rest, para, q, q + |para| + 2)
  {
  }

  lemma {:induction false} CutUpTiles(text: string, para: string, paras: seq<string>, maxLen: nat, q: nat,
                                      chunks: seq<string>, at: seq<nat>)
    requires maxLen >= 1 && SliceAt(text, q, para)
    requires Unread(text, paras, q + |para|, q + |para| + 2)
    requires chunks == CutUp(para, paras, maxLen) && at == CutUpAt(para, paras, maxLen, q)
    ensures Tiles(text, q, chunks, at)
    decreases |paras|, |para| + 1
  {
    hide *;
    CutUpSteps(para, paras, maxLen, q);
    if |para| <= maxLen {
      var end := q + |para|;
      var later, starts := Pack(paras, "", maxLen), PackAt(paras, "", maxLen, end, end + 2);
      StartEmpty(text, para, paras, q);
      PackTiles(text, paras, "", maxLen, end, end + 2, later, starts);
      TilesHere(text, q, para, later, starts);
    } else {
      var head, tail := para[..maxLen], para[maxLen..];
      var later, starts := CutUp(tail, paras, maxLen), CutUpAt(tail, paras, maxLen, q + maxLen);
      SliceSplits(text, q, para, maxLen);
      CutUpTiles(text, tail, paras, maxLen, q + maxLen, later, starts);
      TilesHere(text, q, head, later, starts);
    }
  }

  lemma CutUpSteps(para: string, paras: seq<string>, maxLen: nat, q: nat)
    requires maxLen >= 1
    ensures |para| <= maxLen ==>
              && CutUp(para, paras, maxLen) == [para] + Pack(paras, "", maxLen)
              && CutUpAt(para, paras, maxLen, q) == [q] + PackAt(paras, "", maxLen, q + |para|, q + |para| + 2)
    ensures |para| > maxLen ==>
              && CutUp(para, paras, maxLen) == [para[..maxLen]] + CutUp(para[maxLen..], paras, maxLen)
              && CutUpAt(para, paras, maxLen, q) == [q] + CutUpAt(para[maxLen..], paras, maxLen, q + maxLen)
  {
  }

  lemma StartEmpty(text: string, para: string, paras: seq<string>, q: nat)
    requires SliceAt(text, q, para) && Unread(text, paras, q + |para|, q + |para| + 2)
    ensures Reading(text, paras, "", q + |para|, q + |para| + 2)
  {
  }

  lemma TilesHere(text: string, q: nat, chunk: string, ys: seq<string>, at: seq<nat>)
    requires |at| == |ys| && SliceAt(text, q, chunk) && Tiles(text, q + |chunk|, ys, at)
    ensures Tiles(text, q, [chunk] + ys, [q] + at)
  {
    assert text[q..q] == "";
    TilesCons(text, q, q, chunk, ys, at);
  }

  lemma SliceSplits(text: string, q: nat, s: string, k: nat)
    requires SliceAt(text, q, s) && k <= |s|
    ensures SliceAt(text, q, s[..k]) && SliceAt(text, q + k, s[k..])
  {
    assert text[q..q + k] == text[q..q + |s|][..k];
    assert text[q + k..q + |s|] == text[q..q + |s|][k..];
  }

  // Every chunk is non-empty and within the limit.
  lemma {:induction false} PackFits(paras: seq<string>, current: string, maxLen: nat)
    requires maxLen >= 1 && |current| <= maxLen
    ensures forall c | c in Pack(paras, current, maxLen) :: 1 <= |c| <= maxLen
    decreases |paras|, 0
  {
    if paras != [] {
      var para, candidate, rest := paras[0], Candidate(current, paras[0]), paras[1..];
      if |candidate| <= maxLen {
        PackFits(rest, candidate, maxLen);
      } else if |para| > maxLen {
        CutUpFits(para, rest, maxLen);
      } else {
        PackFits(rest, para, maxLen);
      }
    }
  }

  lemma {:induction false} CutUpFits(para: string, paras: seq<string>, maxLen: nat)
    requires maxLen >= 1 && para != ""
    ensures forall c | c in CutUp(para, paras, maxLen) :: 1 <= |c| <= maxLen
    decreases |paras|, |para| + 1
  {
    if |para| <= maxLen {
      PackFits(paras, "", maxLen);
    } else {
      CutUpFits(para[maxLen..], paras, maxLen);
    }
  }

  lemma {:induction false} TilesKeepCharacters(text: string, from: nat, chunks: seq<string>, at: seq<nat>)
    requires |at| == |chunks| && from <= |text| && Tiles(text, from, chunks, at)
    ensures DropNewlines(Concat(chunks)) == DropNewlines(text[from..])
    decreases |chunks|
  {
    if chunks == [] {
      DropOnlyNewlines(text[from..]);
    } else {
      var s, e := at[0], at[0] + |chunks[0]|;
      TilesKeepCharacters(text, e, chunks[1..], at[1..]);
      DropOnlyNewlines(text[from..s]);
      DropNewlinesConcat(chunks[0], Concat(chunks[1..]));
      DropNewlinesConcat(text[from..s], text[s..]);
      DropNewlinesConcat(text[s..e], text[e..]);
      assert text[from..] == text[from..s] + text[s..] && text[s..] == text[s..e] + text[e..];
    }
  }

  // The chunks are consecutive slices of the text, each within the limit, and
  // what lies between them is newlines only; so no other character is lost.
  lemma ChunksAreLossless(text: string, maxLen: nat)
    requires maxLen >= 1
    ensures Tiles(text, 0, Chunks(text, maxLen), ChunksAt(text, maxLen))
    ensures forall c | c in Chunks(text, maxLen) :: |c| <= maxLen && (text != "" ==> c != "")
    ensures DropNewlines(Concat(Chunks(text, maxLen))) == DropNewlines(text)
  {
    var paras := SplitParagraphs(text);
    assert text[0..0] == "" && text[|text|..] == "" && text[0..] == text;
    if |text| <= maxLen {
      TilesCons(text, 0, 0, text, [], []);
      assert [text] + [] == [text] && [0] + [] == [0];
    } else {
      JoinSplit(text);
      PackTiles(text, paras, "", maxLen, 0, 0, Pack(paras, "", maxLen), PackAt(paras, "", maxLen, 0, 0));
      PackFits(paras, "", maxLen);
      if Pack(paras, "", maxLen) == [] {
        AllNewlinesTile(text, maxLen);
      }
    }
    TilesKeepCharacters(text, 0, Chunks(text, maxLen), ChunksAt(text, maxLen));
  }

  lemma AllNewlinesTile(text: string, k: nat)
    requires k <= |text| && OnlyNewlines(text)
    ensures Tiles(text, 0, [text[..k]], [0])
  {
    assert text[0..0] == "";
    assert [text[..k]][1..] == [] && [0][1..] == [];
  }

  // ----- No needless cut -----

  // text[x..y] lies inside a single chunk.
  predicate InOneChunk(x: nat, y: nat, chunks: seq<string>, at: seq<nat>)
    requires |at| == |chunks|
  {
    exists i | 0 <= i < |chunks| :: at[i] <= x && y <= at[i] + |chunks[i]|
  }

  // Where paragraph k starts, when the first one starts at q.
  function ParagraphAt(paras: seq<string>, k: nat, q: nat): nat
    requires k < |paras|
  {
    if k == 0 then q else ParagraphAt(paras[1..], k - 1, q + |paras[0]| + 2)
  }

  // A paragraph within the limit is not cut, except that newlines in front of it may be dropped.
  predicate KeepsParagraph(paras: seq<string>, k: nat, maxLen: nat, q: nat, chunks: seq<string>, at: seq<nat>)
    requires k < |paras| && |at| == |chunks|
  {
    |paras[k]| <= maxLen && !OnlyNewlines(paras[k]) ==>
      var start := ParagraphAt(paras, k, q);
      InOneChunk(start + LeadingNewlines(paras[k]), start + |paras[k]|, chunks, at)
  }

  // The same for the open chunk.
  predicate KeepsCurrent(current: string, a: nat, chunks: seq<string>, at: seq<nat>)
    requires |at| == |chunks|
  {
    !OnlyNewlines(current) ==> InOneChunk(a + LeadingNewlines(current), a + |current|, chunks, at)
  }

  lemma InLaterChunk(x: nat, y: nat, c: string, s: nat, ys: seq<string>, at: seq<nat>)
    requires |at| == |ys|
    ensures InOneChunk(x, y, ys, at) ==> InOneChunk(x, y, [c] + ys, [s] + at)
    ensures s <= x && y <= s + |c| ==> InOneChunk(x, y, [c] + ys, [s] + at)
  {
    var xs, all := [c] + ys, [s] + at;
    if InOneChunk(x, y, ys, at) {
      var i :| 0 <= i < |ys| && at[i] <= x && y <= at[i] + |ys[i]|;
      assert xs[i + 1] == ys[i] && all[i + 1] == at[i];
    }
    assert xs[0] == c && all[0] == s;
  }

  lemma {:induction false} LeadingNewlinesConcat(s: string, t: string)
    ensures LeadingNewlines(s + t) == if OnlyNewlines(s) then |s| + LeadingNewlines(t) else LeadingNewlines(s)
  {
    if s == "" {
      assert s + t == t;
    } else {
      LeadingNewlinesConcat(s[1..], t);
      assert (s + t)[1..] == s[1..] + t && [s[0]] + s[1..] == s;
      OnlyNewlinesCons(s[0], s[1..]);
    }
  }

  // Whatever of current and of the new paragraph is not leading newlines is in the candidate.
  lemma CandidateKeeps(current: string, para: string, a: nat, q: nat, chunks: seq<string>, at: seq<nat>)
    requires |at| == |chunks| && (current != "" ==> q == a + |current| + 2)
    requires var b := q + |para| - |Candidate(current, para)|;
             b >= 0 && KeepsCurrent(Candidate(current, para), b, chunks, at)
    ensures KeepsCurrent(current, a, chunks, at)
    ensures !OnlyNewlines(para) ==> InOneChunk(q + LeadingNewlines(para), q + |para|, chunks, at)
  {
    var candidate := Candidate(current, para);
    if current != "" {
      var tail := BLANK_LINE + para;
      var raw := current + tail;
      assert raw == current + BLANK_LINE + para;
      LeadingNewlinesConcat(current, tail);
      LeadingNewlinesConcat(BLANK_LINE, para);
      LStripDrops(raw);
      LStripDrops(candidate);
      if !OnlyNewlines(current) || !OnlyNewlines(para) {
        LeadingShort(current);
        LeadingShort(para);
        assert LeadingNewlines(raw) < |raw|;
        assert candidate != "" && LeadingNewlines(candidate) == 0;
        assert !OnlyNewlines(candidate) by {
          assert candidate[0] != '\n';
        }
      }
    }
  }

  lemma LeadingShort(s: string)
    ensures LeadingNewlines(s) <= |s|
    ensures !OnlyNewlines(s) ==> LeadingNewlines(s) < |s|
  {
    LStripDrops(s);
    if LeadingNewlines(s) == |s| {
      assert s[..|s|] == s;
    }
  }

  lemma {:induction false} PackKeeps(paras: seq<string>, current: string, maxLen: nat, a: nat, q: nat, k: nat,
                                     chunks: seq<string>, at: seq<nat>)
    requires maxLen >= 1 && (current != "" ==> q == a + |current| + 2)
    requires chunks == Pack(paras, current, maxLen) && at == PackAt(paras, current, maxLen, a, q)
    ensures KeepsCurrent(current, a, chunks, at)
    ensures k < |paras| ==> KeepsParagraph(paras, k, maxLen, q, chunks, at)
    decreases |paras|, 0
  {
    if paras == [] {
      InLaterChunk(a + LeadingNewlines(current), a + |current|, current, a, [], []);
      assert current != "" ==> chunks == [current] + [] && at == [a] + [];
    } else {
      var para, candidate, rest := paras[0], Candidate(current, paras[0]), paras[1..];
      var end, next := q + |para|, q + |para| + 2;
      if |candidate| <= maxLen {
        CandidateShort(current, para);
        var b := end - |candidate|;
        PackKeeps(rest, candidate, maxLen, b, next, if k == 0 then 0 else k - 1, chunks, at);
        CandidateKeeps(current, para, a, q, chunks, at);
      } else {
        var later := if |para| > maxLen then CutUp(para, rest, maxLen) else Pack(rest, para, maxLen);
        var starts := if |para| > maxLen then CutUpAt(para, rest, maxLen, q) else PackAt(rest, para, maxLen, q, next);
        PackOverflows(paras, current, maxLen, a, q);
        if |para| > maxLen {
          CutUpKeeps(para, rest, maxLen, q, if k == 0 then 0 else k - 1, later, starts);
        } else {
          PackKeeps(rest, para, maxLen, q, next, if k == 0 then 0 else k - 1, later, starts);
        }
        FlushKeeps(paras, current, maxLen, a, q, k, later, starts);
      }
    }
  }

  lemma CandidateShort(current: string, para: string)
    ensures |Candidate(current, para)| <= |current| + 2 + |para|
    ensures current == "" ==> Candidate(current, para) == para
  {
    LStripDrops(current + BLANK_LINE + para);
  }

  lemma FlushKeeps(paras: seq<string>, current: string, maxLen: nat, a: nat, q: nat, k: nat,
                   later: seq<string>, starts: seq<nat>)
    requires paras != [] && |starts| == |later|
    requires k == 0 && |paras[0]| <= maxLen ==> KeepsCurrent(paras[0], q, later, starts)
    requires 0 < k < |paras| ==> KeepsParagraph(paras[1..], k - 1, maxLen, q + |paras[0]| + 2, later, starts)
    ensures |FlushAt(current, a, starts)| == |Flush(current, later)|
    ensures KeepsCurrent(current, a, Flush(current, later), FlushAt(current, a, starts))
    ensures k < |paras| ==> KeepsParagraph(paras, k, maxLen, q, Flush(current, later), FlushAt(current, a, starts))
  {
    InLaterChunk(a + LeadingNewlines(current), a + |current|, current, a, later, starts);
    if k < |paras| {
      var start := ParagraphAt(paras, k, q);
      InLaterChunk(start + LeadingNewlines(paras[k]), start + |paras[k]|, current, a, later, starts);
    }
  }

  lemma {:induction false} CutUpKeeps(para: string, paras: seq<string>, maxLen: nat, q: nat, k: nat,
                                      chunks: seq<string>, at: seq<nat>)
    requires maxLen >= 1
    requires chunks == CutUp(para, paras, maxLen) && at == CutUpAt(para, paras, maxLen, q)
    ensures k < |paras| ==> KeepsParagraph(paras, k, maxLen, q + |para| + 2, chunks, at)
    decreases |paras|, |para| + 1
  {
    var later, starts, head;
    if |para| <= maxLen {
      var end := q + |para|;
      later, starts, head := Pack(paras, "", maxLen), PackAt(paras, "", maxLen, end, end + 2), para;
      PackKeeps(paras, "", maxLen, end, end + 2, k, later, starts);
    } else {
      var tail := para[maxLen..];
      later, starts, head := CutUp(tail, paras, maxLen), CutUpAt(tail, paras, maxLen, q + maxLen), para[..maxLen];
      CutUpKeeps(tail, paras, maxLen, q + maxLen, k, later, starts);
    }
    assert chunks == [head] + later && at == [q] + starts;
    if k < |paras| {
      var start := ParagraphAt(paras, k, q + |para| + 2);
      InLaterChunk(start + LeadingNewlines(paras[k]), start + |paras[k]|, head, q, later, starts);
    }
  }

  // Every paragraph that fits the limit lies in one chunk, up to newlines in front of it.
  lemma FittingParagraphsAreNotCut(text: string, maxLen: nat, k: nat)
    requires maxLen >= 1 && k < |SplitParagraphs(text)|
    ensures KeepsParagraph(SplitParagraphs(text), k, maxLen, 0, Chunks(text, maxLen), ChunksAt(text, maxLen))
  {
    var paras := SplitParagraphs(text);
    if |text| <= maxLen {
      JoinSplit(text);
      ParagraphInside(paras, k, 0);
      assert Chunks(text, maxLen)[0] == text;
    } else {
      PackKeeps(paras, "", maxLen, 0, 0, k, Pack(paras, "", maxLen), PackAt(paras, "", maxLen, 0, 0));
    }
  }

  lemma {:induction false} ParagraphInside(paras: seq<string>, k: nat, q: nat)
    requires k < |paras|
    ensures q <= ParagraphAt(paras, k, q) && ParagraphAt(paras, k, q) + |paras[k]| <= q + |Join(paras)|
  {
    if k > 0 {
      ParagraphInside(paras[1..], k - 1, q + |paras[0]| + 2);
    }
  }

  // ----- How many chunks -----

  lemma {:induction false} PackCount(paras: seq<string>, current: string, maxLen: nat)
    requires 1 <= maxLen && |current| <= maxLen
    ensures |Pack(paras, current, maxLen)| * maxLen <= 3 * |Join(paras)| + |current| + maxLen
    decreases |paras|, 0
  {
    if paras != [] {
      var para, rest := paras[0], paras[1..];
      var joined := |para| + if rest == [] then 0 else 2 + |Join(rest)|;
      assert |Join(paras)| == joined;
      CandidateShort(current, para);
      if |Candidate(current, para)| <= maxLen {
        PackCount(rest, Candidate(current, para), maxLen);
      } else {
        var later := if |para| > maxLen then CutUp(para, rest, maxLen) else Pack(rest, para, maxLen);
        assert Pack(paras, current, maxLen) == Flush(current, later);
        if |para| > maxLen {
          CutUpCount(para, rest, maxLen);
        } else {
          PackCount(rest, para, maxLen);
        }
        FlushCount(current, later, maxLen);
      }
    }
  }

  lemma FlushCount(current: string, later: seq<string>, maxLen: nat)
    ensures |Flush(current, later)| * maxLen <= |later| * maxLen + if current != "" then maxLen else 0
  {
    assert (|later| + 1) * maxLen == |later| * maxLen + maxLen;
  }

  lemma {:induction false} CutUpCount(para: string, paras: seq<string>, maxLen: nat)
    requires 1 <= maxLen && para != ""
    ensures |CutUp(para, paras, maxLen)| * maxLen <=
            |para| + maxLen - 1 + if paras == [] then 0 else 3 * |Join(paras)| + maxLen
    decreases |paras|, |para| + 1
  {
    var n;
    if |para| <= maxLen {
      PackCount(paras, "", maxLen);
      n := |Pack(paras, "", maxLen)|;
    } else {
      CutUpCount(para[maxLen..], paras, maxLen);
      n := |CutUp(para[maxLen..], paras, maxLen)|;
    }
    assert (1 + n) * maxLen == maxLen + n * maxLen;
  }

  // The number of chunks is linear in the length of the text.
  lemma ChunkCountBound(text: string, maxLen: nat)
    requires maxLen >= 1
    ensures |Chunks(text, maxLen)| * maxLen <= 3 * |text| + maxLen
  {
    JoinSplit(text);
    PackCount(SplitParagraphs(text), "", maxLen);
  }
}
