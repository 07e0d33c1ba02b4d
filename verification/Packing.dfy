// The greedy packer uses as few chunks as any other split into consecutive
// paragraph groups could.
module Packing {
  import opened Text
  import opened Chunking

  // A paragraph the packer neither cuts nor strips.
  predicate Plain(para: string, maxLen: nat) {
    para != "" && para[0] != '\n' && |para| <= maxLen
  }

  predicate AllPlain(paras: seq<string>, maxLen: nat) {
    forall p | p in paras :: Plain(p, maxLen)
  }

  function Flatten(groups: seq<seq<string>>): seq<string> {
    if groups == [] then [] else groups[0] + Flatten(groups[1..])
  }

  // No group is empty, and each fits when joined.
  predicate Fit(groups: seq<seq<string>>, maxLen: nat) {
    forall g | g in groups :: g != [] && |Join(g)| <= maxLen
  }

  // A split of paras into consecutive groups that fit.
  predicate Grouping(groups: seq<seq<string>>, paras: seq<string>, maxLen: nat) {
    Flatten(groups) == paras && Fit(groups, maxLen)
  }

  lemma FitRest(groups: seq<seq<string>>, maxLen: nat)
    requires groups != [] && Fit(groups, maxLen)
    ensures groups[0] != [] && |Join(groups[0])| <= maxLen && Fit(groups[1..], maxLen)
  {
    assert groups[0] in groups;
    assert forall h | h in groups[1..] :: h in groups;
  }

  // What the paragraphs add to a chunk that is already open.
  function Added(paras: seq<string>): nat {
    if paras == [] then 0 else 2 + |paras[0]| + Added(paras[1..])
  }

  lemma {:induction false} JoinLength(paras: seq<string>)
    requires paras != []
    ensures |Join(paras)| == |paras[0]| + Added(paras[1..])
  {
    if |paras| > 1 {
      JoinLength(paras[1..]);
    }
  }

  lemma PlainCandidate(current: string, para: string)
    requires current != "" ==> current[0] != '\n'
    ensures Candidate(current, para) == if current != "" then current + BLANK_LINE + para else para
  {
  }

  // One more paragraph of a split: into the chunk under way, or else into the next one.
  lemma Onward(paras: seq<string>, maxLen: nat, open: nat, head: seq<string>, groups: seq<seq<string>>)
      returns (open': nat, head': seq<string>, groups': seq<seq<string>>)
    requires paras != [] && paras == head + Flatten(groups) && open + Added(head) <= maxLen
    requires Fit(groups, maxLen)
    ensures paras[1..] == head' + Flatten(groups') && open' + Added(head') <= maxLen
    ensures Fit(groups', maxLen)
    ensures (open' == open + 2 + |paras[0]| && |groups'| == |groups|) ||
            (open' == |paras[0]| && |groups'| == |groups| - 1)
  {
    if head != [] {
      open', head', groups' := open + 2 + |paras[0]|, head[1..], groups;
      assert head[0] == paras[0];
    } else {
      var g := groups[0];
      FitRest(groups, maxLen);
      JoinLength(g);
      hide Fit, Join;
      assert paras == g + Flatten(groups[1..]) && g[0] == paras[0];
      open', head', groups' := |g[0]|, g[1..], groups[1..];
    }
  }

  // Greedy stays ahead. Compare the packer, with current open, to a split that
  // has a chunk of length open under way, will still put head into it, and
  // then use groups: the packer needs no more chunks if its open chunk is no
  // longer, and at most one more otherwise.
  lemma {:induction false} GreedyStaysAhead(
      paras: seq<string>, current: string, maxLen: nat,
      open: nat, head: seq<string>, groups: seq<seq<string>>)
    requires AllPlain(paras, maxLen) && 1 <= |current| <= maxLen && current[0] != '\n'
    requires paras == head + Flatten(groups) && open + Added(head) <= maxLen
    requires Fit(groups, maxLen)
    ensures |Pack(paras, current, maxLen)| <= 1 + |groups| + if |current| <= open then 0 else 1
    decreases |paras|, |groups|
  {
    if paras != [] {
      var para, rest := paras[0], paras[1..];
      assert Plain(para, maxLen) && AllPlain(rest, maxLen);
      PlainCandidate(current, para);
      var open', head', groups' := Onward(paras, maxLen, open, head, groups);
      var candidate := current + BLANK_LINE + para;
      if |candidate| <= maxLen {
        GreedyStaysAhead(rest, candidate, maxLen, open', head', groups');
      } else {
        GreedyStaysAhead(rest, para, maxLen, open', head', groups');
      }
    }
  }

  // No split into groups that fit uses fewer chunks than the packer.
  lemma GreedyIsOptimal(text: string, maxLen: nat, groups: seq<seq<string>>)
    requires maxLen >= 1 && AllPlain(SplitParagraphs(text), maxLen)
    requires Grouping(groups, SplitParagraphs(text), maxLen)
    ensures |Chunks(text, maxLen)| <= |groups|
  {
    var paras := SplitParagraphs(text);
    var g := groups[0];
    FitRest(groups, maxLen);
    assert paras == g + Flatten(groups[1..]) && g[0] == paras[0];
    if |text| > maxLen {
      JoinLength(g);
      assert paras[0] in paras && paras[1..] == g[1..] + Flatten(groups[1..]);
      GreedyStaysAhead(paras[1..], paras[0], maxLen, |paras[0]|, g[1..], groups[1..]);
    }
  }

  // The split the packer itself makes.
  function GreedyGroups(paras: seq<string>, group: seq<string>, maxLen: nat): seq<seq<string>>
    decreases |paras|
  {
    if paras == [] then [group]
    else if |Join(group + [paras[0]])| <= maxLen then GreedyGroups(paras[1..], group + [paras[0]], maxLen)
    else [group] + GreedyGroups(paras[1..], [paras[0]], maxLen)
  }

  function Joined(groups: seq<seq<string>>): seq<string> {
    if groups == [] then [] else [Join(groups[0])] + Joined(groups[1..])
  }

  lemma {:induction false} JoinSnoc(group: seq<string>, para: string)
    requires group != []
    ensures Join(group + [para]) == Join(group) + BLANK_LINE + para
  {
    var longer := group + [para];
    if |group| == 1 {
      assert longer == [group[0], para];
    } else {
      JoinSnoc(group[1..], para);
      assert longer[1..] == group[1..] + [para];
      assert longer[0] == group[0];
    }
  }

  lemma {:induction false} JoinStart(group: seq<string>, maxLen: nat)
    requires group != [] && AllPlain(group, maxLen)
    ensures Join(group) != "" && Join(group)[0] != '\n'
  {
    assert Plain(group[0], maxLen);
  }

  lemma {:induction false} PackIsGreedyGroups(paras: seq<string>, group: seq<string>, maxLen: nat)
    requires maxLen >= 1 && group != [] && AllPlain(paras, maxLen) && AllPlain(group, maxLen) && |Join(group)| <= maxLen
    ensures Pack(paras, Join(group), maxLen) == Joined(GreedyGroups(paras, group, maxLen))
    decreases |paras|
  {
    JoinStart(group, maxLen);
    if paras != [] {
      var para, rest := paras[0], paras[1..];
      assert Plain(para, maxLen) && AllPlain(rest, maxLen);
      JoinSnoc(group, para);
      PlainCandidate(Join(group), para);
      if |Join(group + [para])| <= maxLen {
        assert AllPlain(group + [para], maxLen);
        PackIsGreedyGroups(rest, group + [para], maxLen);
      } else {
        assert Join([para]) == para;
        PackIsGreedyGroups(rest, [para], maxLen);
        var later := GreedyGroups(rest, [para], maxLen);
        assert ([group] + later)[1..] == later;
      }
    }
  }

  // The minimum is reached: the chunks are the joins of such a split. Together
  // with GreedyIsOptimal, the chunk count is the least any split needs.
  // That split keeps the paragraphs in order, and all its groups fit.
  lemma {:induction false} GreedyGroupsFit(paras: seq<string>, group: seq<string>, maxLen: nat)
    requires group != [] && |Join(group)| <= maxLen && forall p | p in paras :: |p| <= maxLen
    ensures Grouping(GreedyGroups(paras, group, maxLen), group + paras, maxLen)
    decreases |paras|
  {
    if paras == [] {
      assert [group][1..] == [] && group + Flatten([]) == group;
    } else if |Join(group + [paras[0]])| <= maxLen {
      GreedyGroupsFit(paras[1..], group + [paras[0]], maxLen);
      assert group + [paras[0]] + paras[1..] == group + paras;
    } else {
      assert paras[0] in paras && Join([paras[0]]) == paras[0];
      GreedyGroupsFit(paras[1..], [paras[0]], maxLen);
      assert [paras[0]] + paras[1..] == paras;
      var later := GreedyGroups(paras[1..], [paras[0]], maxLen);
      assert ([group] + later)[1..] == later;
    }
  }

  lemma OneGroup(paras: seq<string>, maxLen: nat)
    requires paras != [] && |Join(paras)| <= maxLen
    ensures Grouping([paras], paras, maxLen) && Joined([paras]) == [Join(paras)]
  {
    var one := [paras];
    assert one[1..] == [] && one[0] == paras;
    assert Flatten(one) == paras + Flatten([]) && Joined(one) == [Join(paras)] + Joined([]);
  }

  // The packer reaches the minimum: its chunks are the joins of such a split.
  lemma GreedyIsAGrouping(text: string, maxLen: nat)
    requires maxLen >= 1 && AllPlain(SplitParagraphs(text), maxLen)
    ensures exists groups :: Grouping(groups, SplitParagraphs(text), maxLen) && Chunks(text, maxLen) == Joined(groups)
  {
    var paras := SplitParagraphs(text);
    JoinSplit(text);
    assert paras[0] in paras && [paras[0]] + paras[1..] == paras && Join([paras[0]]) == paras[0];
    if |text| <= maxLen {
      OneGroup(paras, maxLen);
    } else {
      PackIsGreedyGroups(paras[1..], [paras[0]], maxLen);
      GreedyGroupsFit(paras[1..], [paras[0]], maxLen);
    }
  }
}
