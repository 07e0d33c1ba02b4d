// What the dispatcher reads back from claude's transcripts: the prompt it
// wrapped around a message, the turns of a session, and sessions to adopt.
module Transcripts {
  import opened Prelude
  import opened Text
  import opened Store
  import opened Databases
  import opened Dispatching

  // ----- Python's str.strip -----

  // str.isspace
  predicate IsSpace(c: char) {
    || '\t' <= c <= '\r' || '\U{1c}' <= c <= ' '
    || c == '\U{85}' || c == '\U{a0}' || c == '\U{1680}' || '\U{2000}' <= c <= '\U{200a}'
    || c == '\U{2028}' || c == '\U{2029}' || c == '\U{202f}' || c == '\U{205f}' || c == '\U{3000}'
  }

  function StripLeft(s: string): string {
    if s != "" && IsSpace(s[0]) then StripLeft(s[1..]) else s
  }

  function StripRight(s: string): string {
    if s != "" && IsSpace(s[|s| - 1]) then StripRight(s[..|s| - 1]) else s
  }

  // s.strip()
  function Strip(s: string): string {
    StripRight(StripLeft(s))
  }

  predicate Stripped(s: string) {
    s != "" ==> !IsSpace(s[0]) && !IsSpace(s[|s| - 1])
  }

  lemma {:induction false} StripRightIsPrefix(s: string)
    ensures |StripRight(s)| <= |s| && StripRight(s) == s[..|StripRight(s)|]
    ensures StripRight(s) != "" ==> !IsSpace(StripRight(s)[|StripRight(s)| - 1])
  {
    if s != "" && IsSpace(s[|s| - 1]) {
      StripRightIsPrefix(s[..|s| - 1]);
    }
  }

  lemma {:induction false} StripLeftStart(s: string)
    ensures StripLeft(s) != "" ==> !IsSpace(StripLeft(s)[0])
  {
    if s != "" && IsSpace(s[0]) {
      StripLeftStart(s[1..]);
    }
  }

  // Stripping leaves no white space at either end, and nothing to strip again.
  lemma StripIsStripped(s: string)
    ensures Stripped(Strip(s)) && Strip(Strip(s)) == Strip(s)
  {
    StripLeftStart(s);
    StripRightIsPrefix(StripLeft(s));
  }

  // ----- The prompt wrapper -----

  const WRAPPER_START: string := "[Invoked via Matrix"
  const WRAPPER_HEAD: string := WRAPPER_START + " room #"

  // The wording after the agent's name, in short pieces.
  const WORDING: seq<string> :=
    [" by @ted. ", "Output your response ", "as plain text only. ", "Do NOT use mcp__matrix__ ",
     "tools or any Matrix MCP — ", "the dispatcher will post ", "your stdout to the room ", "automatically."]

  const WRAPPER_TAIL: string := Concat(WORDING) + "]"

  function WrapperOf(agent: string): string {
    WRAPPER_HEAD + agent + WRAPPER_TAIL
  }

  // The prompt a spawn passes to claude.
  function SpawnPrompt(agent: string, message: string): string {
    WrapperOf(agent) + BLANK_LINE + message
  }

  // text.split("\n\n", 1)[-1]
  function AfterBlankLine(text: string): string {
    var k := FindBlankLine(text);
    if k == |text| then text else text[k + 2..]
  }

  // What the transcript readers make of a user turn.
  function ReadUserTurn(content: string): string {
    var text := Strip(content);
    if WRAPPER_START <= text then AfterBlankLine(text) else text
  }

  predicate BlankLineAt(s: string, i: nat) {
    i + 2 <= |s| && s[i] == '\n' && s[i + 1] == '\n'
  }

  lemma {:induction false} FindsFirst(s: string, i: nat)
    requires BlankLineAt(s, i)
    ensures FindBlankLine(s) <= i && BlankLineAt(s, FindBlankLine(s))
  {
    if !BlankLineAt(s, 0) {
      FindsFirst(s[1..], i - 1);
    }
  }

  // The first blank line of a + "\n\n" + b is at the end of a, if a has none
  // and does not end in a newline.
  lemma BlankLineAfter(a: string, b: string)
    requires !HasBlankLine(a) && a != "" && a[|a| - 1] != '\n'
    ensures FindBlankLine(a + BLANK_LINE + b) == |a|
  {
    var s := a + BLANK_LINE + b;
    FindsFirst(s, |a|);
    var k := FindBlankLine(s);
    assert forall i | 0 <= i < |a| :: s[i] == a[i];
  }

  lemma BlankLineWithin(a: string, b: string)
    requires HasBlankLine(a)
    ensures FindBlankLine(a + b) + 2 <= |a|
  {
    var i :| 0 <= i < |a| - 1 && a[i] == '\n' && a[i + 1] == '\n';
    FindsFirst(a + b, i);
  }

  predicate FreeOfNewlines(s: string) {
    '\n' !in s
  }

  lemma {:induction false} ConcatFreeOfNewlines(pieces: seq<string>)
    requires forall p | p in pieces :: FreeOfNewlines(p)
    ensures FreeOfNewlines(Concat(pieces))
  {
    if pieces != [] {
      ConcatFreeOfNewlines(pieces[1..]);
      assert FreeOfNewlines(pieces[0]) && Concat(pieces) == pieces[0] + Concat(pieces[1..]);
    }
  }

  lemma TailHasNoNewlines()
    ensures FreeOfNewlines(WRAPPER_TAIL)
  {
    WordingHasNoNewlines();
    hide Concat;
    ConcatFreeOfNewlines(WORDING);
  }

  lemma WordingHasNoNewlines()
    ensures forall p | p in WORDING :: FreeOfNewlines(p)
  {
    hide Concat;
  }

  // Between two texts without newlines, a blank line is in the middle or nowhere.
  lemma BlankLineBetween(before: string, s: string, after: string)
    requires FreeOfNewlines(before) && FreeOfNewlines(after)
    ensures HasBlankLine(before + s + after) <==> HasBlankLine(s)
  {
    var w := before + s + after;
    assert forall i | 0 <= i < |s| :: w[|before| + i] == s[i];
    assert forall i | 0 <= i < |before| :: w[i] == before[i] && before[i] in before;
    assert forall i | 0 <= i < |after| :: w[|before| + |s| + i] == after[i] && after[i] in after;
    if HasBlankLine(w) {
      var i :| 0 <= i < |w| - 1 && w[i] == '\n' && w[i + 1] == '\n';
      assert |before| <= i;
      assert i + 1 < |before| + |s|;
      assert s[i - |before|] == '\n' && s[i - |before| + 1] == '\n';
    }
    if HasBlankLine(s) {
      var i :| 0 <= i < |s| - 1 && s[i] == '\n' && s[i + 1] == '\n';
      assert w[|before| + i] == '\n' && w[|before| + i + 1] == '\n';
    }
  }

  // The wrapper opens and closes with a bracket, and has a blank line exactly
  // when the agent's name has one.
  lemma WrapperShape(agent: string)
    ensures HasBlankLine(WrapperOf(agent)) <==> HasBlankLine(agent)
    ensures var w := WrapperOf(agent); WRAPPER_START <= w && w[0] == '[' && w[|w| - 1] == ']'
  {
    TailHasNoNewlines();
    HeadHasNoNewlines();
    BlankLineBetween(WRAPPER_HEAD, agent, WRAPPER_TAIL);
    StartsLike(WRAPPER_START, " room #", agent + WRAPPER_TAIL);
    assert WrapperOf(agent) == WRAPPER_START + " room #" + (agent + WRAPPER_TAIL);
  }

  lemma HeadHasNoNewlines()
    ensures FreeOfNewlines(WRAPPER_HEAD)
  {
  }

  lemma StartsLike(a: string, b: string, c: string)
    ensures a <= a + b + c
  {
  }

  lemma AlreadyStripped(s: string)
    requires Stripped(s)
    ensures Strip(s) == s
  {
  }

  // A prompt with this wrapper is stripped already, and is recognised.
  lemma WrapRoundTrip(w: string, message: string)
    requires w != "" && WRAPPER_START <= w && !IsSpace(w[0]) && w[|w| - 1] != '\n'
    requires Stripped(message) && message != ""
    ensures ReadUserTurn(w + BLANK_LINE + message) == message <==> !HasBlankLine(w)
  {
    var prompt := w + BLANK_LINE + message;
    assert prompt[0] == w[0] && prompt[|prompt| - 1] == message[|message| - 1];
    AlreadyStripped(prompt);
    StartsLike(w, BLANK_LINE, message);
    assert WRAPPER_START <= prompt;
    hide IsSpace, Strip, Stripped;
    if HasBlankLine(w) {
      BlankLineWithin(w, BLANK_LINE + message);
      assert w + (BLANK_LINE + message) == prompt;
      hide HasBlankLine, FindBlankLine;
    } else {
      BlankLineAfter(w, message);
      hide HasBlankLine, FindBlankLine;
      assert prompt[|w| + 2..] == message;
    }
  }

  // Reading a spawn's prompt back gives the message, for a message that is
  // stripped and not empty, exactly when the agent's name has no blank line.
  lemma PromptRoundTrip(agent: string, message: string)
    requires Stripped(message) && message != ""
    ensures ReadUserTurn(SpawnPrompt(agent, message)) == message <==> !HasBlankLine(agent)
  {
    WrapperShape(agent);
    hide WrapperOf, ReadUserTurn, HasBlankLine;
    WrapRoundTrip(WrapperOf(agent), message);
  }

  // An empty message comes back as the wrapper instead.
  lemma EmptyPrompt(agent: string)
    requires !HasBlankLine(agent)
    ensures ReadUserTurn(SpawnPrompt(agent, "")) == WrapperOf(agent)
  {
    WrapperShape(agent);
    hide WrapperOf;
    var w, prompt := WrapperOf(agent), SpawnPrompt(agent, "");
    assert prompt == w + "\n\n" && prompt[0] == w[0];
    assert StripLeft(prompt) == prompt;
    assert prompt[..|prompt| - 1] == w + "\n" && (w + "\n")[..|w|] == w;
    assert StripRight(w) == w && StripRight(w + "\n") == w && StripRight(prompt) == w;
    FindBlankLineIsFirst(w);
  }

  // A resumed session's message is passed unwrapped. It comes back as it is
  // unless it looks like a wrapper itself.
  lemma ResumeRoundTrip(message: string)
    requires Stripped(message)
    ensures ReadUserTurn(message) == message <==> !(WRAPPER_START <= message && HasBlankLine(message))
  {
    assert StripLeft(message) == message && StripRight(message) == message;
    FindBlankLineIsFirst(message);
  }

  // ----- Sessions to adopt -----

  // A transcript file: its stem, whether that parses as a UUID, and its age.
  datatype TranscriptFile = TranscriptFile(stem: SessionId, isUuid: bool, modified: int)

  predicate Adoptable(t: Tables, room: RoomId, file: TranscriptFile) {
    file.isUuid && !Tracked(t, room, file.stem)
  }

  // find_unmirrored_session_id: of the UUID transcripts that the room does not
  // track, the first of the newest; nothing exactly when there is none. This
  // is a choice that !mirror may make in the state machine.
  method FindUnmirrored(db: Database, room: RoomId, files: seq<TranscriptFile>) returns (found: Option<SessionId>)
    ensures found.None? <==> forall f | f in files :: !Adoptable(db.State(), room, f)
    ensures found.Some? ==>
              exists i | 0 <= i < |files| ::
                && files[i].stem == found.value && Adoptable(db.State(), room, files[i])
                && (forall j | 0 <= j < i && Adoptable(db.State(), room, files[j]) ::
                      files[j].modified < files[i].modified)
                && (forall j | i < j < |files| && Adoptable(db.State(), room, files[j]) ::
                      files[j].modified <= files[i].modified)
  {
    var known := set r | r in db.sessions && db.sessions[r].room == room :: db.sessions[r].id;
    assert forall id :: id in known <==> Tracked(db.State(), room, id);
    hide Tracked;
    found := None;
    var best := 0;
    for n := 0 to |files|
      invariant found.None? <==> forall j | 0 <= j < n :: !Adoptable(db.State(), room, files[j])
      invariant found.Some? ==>
                  && best < n && files[best].stem == found.value && Adoptable(db.State(), room, files[best])
                  && (forall j | 0 <= j < best && Adoptable(db.State(), room, files[j]) ::
                        files[j].modified < files[best].modified)
                  && (forall j | best < j < n && Adoptable(db.State(), room, files[j]) ::
                        files[j].modified <= files[best].modified)
    {
      if files[n].stem !in known && files[n].isUuid && (found.None? || files[n].modified > files[best].modified) {
        found, best := Some(files[n].stem), n;
      }
    }
  }
}
