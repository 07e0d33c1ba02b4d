// The Python string operations the dispatcher relies on: splitting on blank
// lines, joining and stripping leading newlines.
module Text {

  const BLANK_LINE: string := "\n\n"

  predicate OnlyNewlines(s: string) {
    forall i | 0 <= i < |s| :: s[i] == '\n'
  }

  // s.lstrip("\n")
  function LStripNewlines(s: string): string {
    if s != "" && s[0] == '\n' then LStripNewlines(s[1..]) else s
  }

  // How many newlines s starts with.
  function LeadingNewlines(s: string): nat {
    if s != "" && s[0] == '\n' then 1 + LeadingNewlines(s[1..]) else 0
  }

  // s.find("\n\n"), with |s| for "not found".
  function FindBlankLine(s: string): (k: nat)
    ensures k == |s| || k + 2 <= |s|
  {
    if |s| < 2 then |s|
    else if s[0] == '\n' && s[1] == '\n' then 0
    else 1 + FindBlankLine(s[1..])
  }

  predicate HasBlankLine(s: string) {
    exists i | 0 <= i < |s| - 1 :: s[i] == '\n' && s[i + 1] == '\n'
  }

  // s.split("\n\n")
  function SplitParagraphs(s: string): (ps: seq<string>)
    ensures |ps| >= 1
  {
    var k := FindBlankLine(s);
    if k == |s| then [s] else [s[..k]] + SplitParagraphs(s[k + 2..])
  }

  // "\n\n".join(ps)
  function Join(ps: seq<string>): string {
    if |ps| == 0 then ""
    else if |ps| == 1 then ps[0]
    else ps[0] + BLANK_LINE + Join(ps[1..])
  }

  // s without any newline: what survives when newlines do not count.
  function DropNewlines(s: string): string {
    if s == "" then ""
    else (if s[0] == '\n' then "" else [s[0]]) + DropNewlines(s[1..])
  }

  function Concat(ss: seq<string>): string {
    if ss == [] then "" else ss[0] + Concat(ss[1..])
  }

  lemma HasBlankLineCons(c: char, s: string)
    ensures HasBlankLine([c] + s) <==> HasBlankLine(s) || (c == '\n' && s != "" && s[0] == '\n')
  {
    var t := [c] + s;
    assert forall i | 0 <= i < |s| :: t[i + 1] == s[i];
    if HasBlankLine(t) {
      var i :| 0 <= i < |t| - 1 && t[i] == '\n' && t[i + 1] == '\n';
      assert i == 0 || (s[i - 1] == '\n' && s[i] == '\n');
    }
    if HasBlankLine(s) {
      var i :| 0 <= i < |s| - 1 && s[i] == '\n' && s[i + 1] == '\n';
      assert t[i + 1] == '\n' && t[i + 2] == '\n';
    }
    if c == '\n' && s != "" && s[0] == '\n' {
      assert t[0] == '\n' && t[1] == '\n';
    }
  }

  // A character in front that starts no blank line moves the first one on by one.
  lemma StillFirst(c: char, t: string, k: nat)
    requires k + 2 <= |t| && t[k..k + 2] == BLANK_LINE && !HasBlankLine(t[..k + 1])
    requires c != '\n' || t[0] != '\n'
    ensures ([c] + t)[k + 1..k + 3] == BLANK_LINE && !HasBlankLine(([c] + t)[..k + 2])
  {
    var s := [c] + t;
    assert s[k + 1..k + 3] == t[k..k + 2];
    assert s[..k + 2] == [c] + t[..k + 1];
    HasBlankLineCons(c, t[..k + 1]);
  }

  // FindBlankLine is the first blank line, and the whole length exactly when there is none.
  lemma {:induction false} FindBlankLineIsFirst(s: string)
    ensures FindBlankLine(s) == |s| <==> !HasBlankLine(s)
    ensures FindBlankLine(s) < |s| ==>
              var k := FindBlankLine(s);
              k + 2 <= |s| && s[k..k + 2] == BLANK_LINE && !HasBlankLine(s[..k + 1])
  {
    if |s| >= 2 {
      var t := s[1..];
      assert s == [s[0]] + t;
      HasBlankLineCons(s[0], t);
      if s[0] == '\n' && s[1] == '\n' {
        assert s[..2] == BLANK_LINE;
      } else {
        FindBlankLineIsFirst(t);
        var k := FindBlankLine(t);
        if k < |t| {
          StillFirst(s[0], t, k);
        }
      }
    }
  }

  // Joining undoes splitting.
  lemma {:induction false} JoinSplit(s: string)
    ensures Join(SplitParagraphs(s)) == s
    decreases |s|
  {
    FindBlankLineIsFirst(s);
    var k := FindBlankLine(s);
    if k < |s| {
      JoinSplit(s[k + 2..]);
      JoinCons(s[..k], SplitParagraphs(s[k + 2..]));
      assert s == s[..k] + s[k..k + 2] + s[k + 2..];
    }
  }

  lemma {:induction false} JoinCons(p: string, ps: seq<string>)
    requires ps != []
    ensures Join([p] + ps) == p + BLANK_LINE + Join(ps)
  {
    assert ([p] + ps)[1..] == ps;
  }

  lemma OnlyNewlinesCons(c: char, s: string)
    ensures OnlyNewlines([c] + s) <==> c == '\n' && OnlyNewlines(s)
  {
    assert ([c] + s)[0] == c;
    assert forall i | 0 <= i < |s| :: ([c] + s)[i + 1] == s[i];
  }

  // Stripping leading newlines removes exactly the leading newlines.
  lemma {:induction false} LStripDrops(s: string)
    ensures LeadingNewlines(s) <= |s|
    ensures LStripNewlines(s) == s[LeadingNewlines(s)..]
    ensures OnlyNewlines(s[..LeadingNewlines(s)])
    ensures LStripNewlines(s) != "" ==> LStripNewlines(s)[0] != '\n'
    ensures LStripNewlines(s) == "" <==> OnlyNewlines(s)
  {
    if s != "" && s[0] == '\n' {
      var n := LeadingNewlines(s[1..]);
      LStripDrops(s[1..]);
      assert s[1..][n..] == s[n + 1..];
      OnlyNewlinesCons(s[0], s[1..][..n]);
      assert s[..n + 1] == [s[0]] + s[1..][..n];
      OnlyNewlinesCons(s[0], s[1..]);
      assert s == [s[0]] + s[1..];
    } else if s != "" {
      assert s[0] != '\n';
    }
  }

  lemma DropNewlinesFirst(s: string)
    requires s != ""
    ensures DropNewlines(s) == (if s[0] == '\n' then "" else [s[0]]) + DropNewlines(s[1..])
  {
  }

  lemma {:induction false} DropNewlinesConcat(s: string, t: string)
    ensures DropNewlines(s + t) == DropNewlines(s) + DropNewlines(t)
  {
    if s == "" {
      assert s + t == t;
    } else {
      DropNewlinesFirst(s);
      DropNewlinesFirst(s + t);
      hide DropNewlines;
      DropNewlinesConcat(s[1..], t);
      var first := if s[0] == '\n' then "" else [s[0]];
      assert (s + t)[0] == s[0] && (s + t)[1..] == s[1..] + t;
      assert first + (DropNewlines(s[1..]) + DropNewlines(t)) == (first + DropNewlines(s[1..])) + DropNewlines(t);
    }
  }

  lemma {:induction false} DropOnlyNewlines(s: string)
    requires OnlyNewlines(s)
    ensures DropNewlines(s) == ""
  {
    if s != "" {
      assert forall i | 0 <= i < |s[1..]| :: s[1..][i] == s[i + 1];
      DropOnlyNewlines(s[1..]);
    }
  }
}
