// Comments taken out of a settings text: a lexer with one pointer at the
// character read and one at the start of what was not copied yet.
module StripComments {

  datatype Inside = None | SingleLine | MultiLine

  // The quote at `i` is escaped by the backslash before it. The look-back is two
  // characters long; before the beginning of the text there is no backslash.
  predicate Escaped(s: string, i: nat)
    requires i < |s|
  {
    i > 0 && s[i - 1] == '\\' && !(i > 1 && s[i - 2] == '\\')
  }

  predicate Toggles(s: string, i: nat)
    requires i < |s|
  {
    s[i] == '"' && !Escaped(s, i)
  }

  // ---- The plain machine ------------------------------------------------------------

  // One or two characters at a time, every output character as soon as it is
  // known. `pending` says that a comment character was read since the last output.
  datatype State = State(pos: nat, inside: Inside, quoted: bool, pending: bool, out: string)

  function Next(s: string, i: nat): char
    requires i < |s|
  {
    if i + 1 == |s| then '\0' else s[i + 1]
  }

  function Space(st: State): string {
    if st.pending then " " else ""
  }

  // How far a step goes, what it leaves the machine in, and what it puts out.
  datatype Move = Move(width: nat, inside: Inside, quoted: bool, pending: bool, emit: string)

  function Plan(s: string, st: State): (m: Move)
    requires st.pos < |s|
    ensures 0 < m.width <= |s| - st.pos
  {
    var c, d := s[st.pos], Next(s, st.pos);
    match st.inside
    case None =>
      var quoted := if Toggles(s, st.pos) then !st.quoted else st.quoted;
      if !quoted && c == '/' && d == '/' then Move(2, SingleLine, quoted, true, "")
      else if !quoted && c == '/' && d == '*' then Move(2, MultiLine, quoted, true, "")
      else Move(1, None, quoted, false, [c])
    case SingleLine =>
      if c == '\r' && d == '\n' then Move(2, None, st.quoted, false, Space(st) + "\r\n")
      else if c == '\n' then Move(1, None, st.quoted, false, Space(st) + "\n")
      else Move(1, SingleLine, st.quoted, true, "")
    case MultiLine =>
      if c == '*' && d == '/' then Move(2, None, st.quoted, false, " ")
      else if c == '\r' && d == '\n' then Move(2, MultiLine, st.quoted, false, Space(st) + "\r\n")
      else if c == '\n' then Move(1, MultiLine, st.quoted, false, Space(st) + "\n")
      else Move(1, MultiLine, st.quoted, true, "")
  }

  function Step(s: string, st: State): (t: State)
    requires st.pos < |s|
    ensures st.pos < t.pos <= |s|
  {
    var m := Plan(s, st);
    State(st.pos + m.width, m.inside, m.quoted, m.pending, st.out + m.emit)
  }

  function Run(s: string, st: State): State
    requires st.pos <= |s|
    decreases |s| - st.pos
  {
    if st.pos == |s| then st else Run(s, Step(s, st))
  }

  const START := State(0, None, false, false, "")

  function Strip(s: string): string {
    Run(s, START).out
  }

  // ---- The code ----------------------------------------------------------------------

  // What the copying pointer has left behind: the machine's output, but for the
  // characters between `offset` and `ch` that are copied in one go later.
  ghost predicate Lazy(s: string, st: State, result: string, offset: nat) {
    && offset <= st.pos <= |s|
    && (st.inside == None ==> st.out == result + s[offset..st.pos] && !st.pending)
    && (st.inside != None ==> st.out == result && (st.pending <==> offset < st.pos))
    && (st.inside == SingleLine ==> st.pending)
    && (result == "" ==> offset == 0)
    && (st.inside != None ==> !st.quoted)
  }

  lemma RunOn(s: string, st: State)
    requires st.pos < |s|
    ensures Run(s, st) == Run(s, Step(s, st))
  {
  }

  // feedContent: what was not copied yet goes to the result.
  method FeedContent(content: string, result0: string, offset0: nat, ch: nat) returns (result: string, offset: nat)
    requires offset0 <= ch <= |content|
    ensures result == result0 + content[offset0..ch] && offset == ch
  {
    result, offset := result0, offset0;
    if ch > offset {
      result := result + content[offset..ch];
      offset := ch;
    }
  }

  // feedComment: what was not copied yet is a comment and leaves one space.
  method FeedComment(content: string, result0: string, offset0: nat, ch: nat) returns (result: string, offset: nat)
    requires offset0 <= ch <= |content|
    ensures result == result0 + (if ch > offset0 then " " else "") && offset == ch
  {
    result, offset := result0, offset0;
    if ch > offset {
      result := result + " ";
      offset := ch;
    }
  }

  // What the code has in `result` and `offset` after the same step.
  function Copied(s: string, st: State, result: string, offset: nat): (string, nat)
    requires offset <= st.pos < |s|
  {
    var m, space := Plan(s, st), if st.pos > offset then " " else "";
    var next := st.pos + m.width;
    if st.inside == None then
      if m.inside == None then (result, offset) else (result + s[offset..st.pos], st.pos)
    else if st.inside == SingleLine then
      if m.inside == None then (result + space, st.pos) else (result, offset)
    else if m.inside == None then (result + " ", next)
    else if m.emit == "" then (result, offset)
    else (result + space + s[st.pos..next], next)
  }

  lemma CopiedOutside(s: string, st: State, result: string, offset: nat)
    requires st.pos < |s| && Lazy(s, st, result, offset) && st.inside == None
    ensures var (r, o) := Copied(s, st, result, offset); Lazy(s, Step(s, st), r, o)
  {
    assert s[offset..st.pos + 1] == s[offset..st.pos] + [s[st.pos]];
    assert result + s[offset..st.pos] + [s[st.pos]] == result + s[offset..st.pos + 1];
  }

  lemma CopiedSingle(s: string, st: State, result: string, offset: nat)
    requires st.pos < |s| && Lazy(s, st, result, offset) && st.inside == SingleLine
    ensures var (r, o) := Copied(s, st, result, offset); Lazy(s, Step(s, st), r, o)
  {
    var m := Plan(s, st);
    if m.inside == None {
      if m.width == 2 { assert s[st.pos..st.pos + 2] == "\r\n"; } else { assert s[st.pos..st.pos + 1] == "\n"; }
      assert result + " " + s[st.pos..st.pos + m.width] == result + m.emit;
    }
  }

  lemma CopiedMulti(s: string, st: State, result: string, offset: nat)
    requires st.pos < |s| && Lazy(s, st, result, offset) && st.inside == MultiLine
    ensures var (r, o) := Copied(s, st, result, offset); Lazy(s, Step(s, st), r, o)
  {
    var m := Plan(s, st);
    var next := st.pos + m.width;
    if m.inside == None {
      assert s[next..next] == "";
      assert result + " " + "" == result + " ";
    } else if m.emit != "" {
      if m.width == 2 { assert s[st.pos..next] == "\r\n"; } else { assert s[st.pos..next] == "\n"; }
      assert result + Space(st) + s[st.pos..next] == result + m.emit;
    }
  }

  lemma CopiedIsLazy(s: string, st: State, result: string, offset: nat)
    requires st.pos < |s| && Lazy(s, st, result, offset)
    ensures var (r, o) := Copied(s, st, result, offset); Lazy(s, Step(s, st), r, o)
  {
    match st.inside
    case None => CopiedOutside(s, st, result, offset);
    case SingleLine => CopiedSingle(s, st, result, offset);
    case MultiLine => CopiedMulti(s, st, result, offset);
  }

  // One round of the loop.
  method Advance(content: string, ch0: nat, inside0: Inside, quoted0: bool, result0: string, offset0: nat,
                 ghost st: State)
    returns (ch: nat, inside: Inside, quoted: bool, result: string, offset: nat)
    requires offset0 <= ch0 < |content|
    requires st.pos == ch0 && st.inside == inside0 && st.quoted == quoted0
    requires inside0 != None ==> !quoted0 && (st.pending <==> offset0 < ch0)
    requires inside0 == SingleLine ==> st.pending
    ensures var t := Step(content, st); ch == t.pos && inside == t.inside && quoted == t.quoted
    ensures (result, offset) == Copied(content, st, result0, offset0)
  {
    ch, inside, quoted, result, offset := ch0, inside0, quoted0, result0, offset0;
    var currentChar, nextChar := content[ch], Next(content, ch);
    if inside == None && currentChar == '"' {
      var escaped := ch > 0 && content[ch - 1] == '\\' && !(ch > 1 && content[ch - 2] == '\\');
      if !escaped { quoted := !quoted; }
    }
    if quoted {
      ch := ch + 1;
      return;
    }
    if inside == None && currentChar == '/' && nextChar == '/' {
      result, offset := FeedContent(content, result, offset, ch);
      inside := SingleLine;
      ch := ch + 2;
    } else if inside == SingleLine && currentChar == '\r' && nextChar == '\n' {
      result, offset := FeedComment(content, result, offset, ch);
      ch := ch + 2;
      inside := None;
    } else if inside == SingleLine && currentChar == '\n' {
      result, offset := FeedComment(content, result, offset, ch);
      ch := ch + 1;
      inside := None;
    } else if inside == None && currentChar == '/' && nextChar == '*' {
      result, offset := FeedContent(content, result, offset, ch);
      ch := ch + 2;
      inside := MultiLine;
    } else if inside == MultiLine && currentChar == '*' && nextChar == '/' {
      ch := ch + 2;
      result, offset := FeedComment(content, result, offset, ch);
      inside := None;
    } else if inside == MultiLine && currentChar == '\r' && nextChar == '\n' {
      result, offset := FeedComment(content, result, offset, ch);
      ch := ch + 2;
      result, offset := FeedContent(content, result, offset, ch);
    } else if inside == MultiLine && currentChar == '\n' {
      result, offset := FeedComment(content, result, offset, ch);
      ch := ch + 1;
      result, offset := FeedContent(content, result, offset, ch);
    } else {
      ch := ch + 1;
    }
  }

  method StripText(content: string) returns (result: string)
    ensures result == Strip(content)
  {
    var inside, quoted := None, false;
    result := "";
    var offset, ch := 0, 0;
    ghost var st := START;
    while ch != |content|
      invariant 0 <= offset && 0 <= ch && st.pos == ch && st.inside == inside && st.quoted == quoted
      invariant Lazy(content, st, result, offset) && Run(content, st) == Run(content, START)
      decreases |content| - ch
    {
      RunOn(content, st);
      CopiedIsLazy(content, st, result, offset);
      ch, inside, quoted, result, offset := Advance(content, ch, inside, quoted, result, offset, st);
      st := Step(content, st);
    }
    if inside == None && |content| > offset {
      if result == "" {
        assert content[0..|content|] == content;
        return content;
      } else {
        result := result + content[offset..];
      }
    }
  }

  // ---- Lines --------------------------------------------------------------------------

  function Lines(s: string): nat {
    if s == "" then 0 else Lines(s[..|s| - 1]) + if s[|s| - 1] == '\n' then 1 else 0
  }

  lemma {:induction false} LinesOfSum(a: string, b: string)
    ensures Lines(a + b) == Lines(a) + Lines(b)
    decreases |b|
  {
    if b == "" {
      assert a + b == a;
    } else {
      LinesOfSum(a, b[..|b| - 1]);
      assert (a + b)[..|a + b| - 1] == a + b[..|b| - 1];
    }
  }

  function OneLine(c: char): nat {
    if c == '\n' then 1 else 0
  }

  lemma LinesOfTwo(c: char, d: char)
    ensures Lines([c]) == OneLine(c) && Lines([c] + [d]) == OneLine(c) + OneLine(d)
  {
    assert [c][..0] == "" && ([c] + [d])[..1] == [c];
  }

  lemma LinesOfEnds(st: State)
    ensures Lines("") == 0 && Lines(" ") == 0
    ensures Lines(Space(st) + "\n") == 1 && Lines(Space(st) + "\r\n") == 1
  {
    assert Lines(" ") == 0 by { LinesOfTwo(' ', ' '); assert " " == [' ']; }
    assert Lines("\n") == 1 by { LinesOfTwo('\n', ' '); assert "\n" == ['\n']; }
    assert Lines("\r\n") == 1 by { LinesOfTwo('\r', '\n'); assert "\r\n" == ['\r'] + ['\n']; }
    LinesOfSum(Space(st), "\n");
    LinesOfSum(Space(st), "\r\n");
  }

  lemma LinesRead(s: string, i: nat)
    requires i < |s|
    ensures Lines(s[i..i + 1]) == OneLine(s[i])
    ensures i + 1 < |s| ==> Lines(s[i..i + 2]) == OneLine(s[i]) + OneLine(Next(s, i))
  {
    var c, d := s[i], Next(s, i);
    LinesOfTwo(c, d);
    assert s[i..i + 1] == [c];
    if i + 1 < |s| { assert s[i..i + 2] == [c] + [d]; }
  }

  // A step puts out as many line ends as it reads.
  ghost predicate SameLines(s: string, st: State, m: Move)
    requires st.pos < |s|
  {
    && (m.width == 1 || (m.width == 2 && st.pos + 1 < |s|))
    && Lines(m.emit) == OneLine(s[st.pos]) + if m.width == 1 then 0 else OneLine(Next(s, st.pos))
  }

  lemma LinesOutside(s: string, st: State)
    requires st.pos < |s| && st.inside == None
    ensures SameLines(s, st, Plan(s, st))
  {
    LinesOfTwo(s[st.pos], ' ');
    assert Lines("") == 0;
  }

  lemma LinesInSingle(s: string, st: State)
    requires st.pos < |s| && st.inside == SingleLine
    ensures SameLines(s, st, Plan(s, st))
  {
    LinesOfEnds(st);
  }

  lemma LinesInMulti(s: string, st: State)
    requires st.pos < |s| && st.inside == MultiLine
    ensures SameLines(s, st, Plan(s, st))
  {
    LinesOfEnds(st);
  }

  lemma LinesPutOut(s: string, st: State)
    requires st.pos < |s|
    ensures SameLines(s, st, Plan(s, st))
  {
    match st.inside
    case None => LinesOutside(s, st);
    case SingleLine => LinesInSingle(s, st);
    case MultiLine => LinesInMulti(s, st);
  }

  lemma LinesOfStep(s: string, st: State)
    requires st.pos < |s|
    ensures var m := Plan(s, st); Lines(m.emit) == Lines(s[st.pos..st.pos + m.width])
  {
    LinesRead(s, st.pos);
    LinesPutOut(s, st);
  }

  lemma LinesAlong(out: string, emit: string, s: string, i: nat, j: nat)
    requires i <= j <= |s| && Lines(out) == Lines(s[..i]) && Lines(emit) == Lines(s[i..j])
    ensures Lines(out + emit) == Lines(s[..j])
  {
    LinesOfSum(out, emit);
    LinesOfSum(s[..i], s[i..j]);
    assert s[..j] == s[..i] + s[i..j];
  }

  lemma LinesStep(s: string, st: State)
    requires st.pos < |s| && Lines(st.out) == Lines(s[..st.pos])
    ensures var t := Step(s, st); Lines(t.out) == Lines(s[..t.pos])
  {
    LinesOfStep(s, st);
    LinesAlong(st.out, Plan(s, st).emit, s, st.pos, st.pos + Plan(s, st).width);
  }

  lemma {:induction false} LinesKept(s: string, st: State)
    requires st.pos <= |s| && Lines(st.out) == Lines(s[..st.pos])
    ensures Lines(Run(s, st).out) == Lines(s)
    decreases |s| - st.pos
  {
    if st.pos == |s| {
      assert s[..|s|] == s;
    } else {
      LinesStep(s, st);
      LinesKept(s, Step(s, st));
    }
  }

  // Main result: every text keeps its number of lines.
  lemma StripKeepsLines(s: string)
    ensures Lines(Strip(s)) == Lines(s)
  {
    LinesKept(s, START);
  }

  // ---- Comment-free texts ------------------------------------------------------------

  // Whether a string is open after the first `n` characters, were there no comments.
  predicate Quoted(s: string, n: nat)
    requires n <= |s|
  {
    if n == 0 then false
    else if Toggles(s, n - 1) then !Quoted(s, n - 1)
    else Quoted(s, n - 1)
  }

  predicate StartsComment(c: char, d: char) {
    c == '/' && (d == '/' || d == '*')
  }

  // No comment starts outside the strings.
  ghost predicate Clean(s: string) {
    forall i :: 0 <= i < |s| - 1 && StartsComment(s[i], s[i + 1]) ==> Quoted(s, i)
  }

  predicate EndsInBackslash(s: string, n: nat)
    requires n <= |s|
  {
    n > 0 && s[n - 1] == '\\'
  }

  // Would a quote right after the first `n` characters be escaped?
  predicate LookBack(s: string, n: nat)
    requires n <= |s|
  {
    EndsInBackslash(s, n) && !EndsInBackslash(s, n - 1)
  }

  // Text appended later does not change what is said about the beginning.
  lemma {:induction false} QuotedOfPrefix(s: string, more: string, n: nat)
    requires n <= |s|
    ensures Quoted(s + more, n) == Quoted(s, n)
  {
    if n > 0 {
      QuotedOfPrefix(s, more, n - 1);
      assert forall k :: 0 <= k < n ==> (s + more)[k] == s[k];
      assert Toggles(s + more, n - 1) == Toggles(s, n - 1);
    }
  }

  lemma QuotedAppend(s: string, c: char)
    ensures Quoted(s + [c], |s| + 1) == if c == '"' && !LookBack(s, |s|) then !Quoted(s, |s|) else Quoted(s, |s|)
  {
    var t := s + [c];
    QuotedOfPrefix(s, [c], |s|);
    assert t[|s|] == c;
    assert Escaped(t, |s|) == LookBack(s, |s|);
  }

  lemma CleanAppend(s: string, c: char)
    requires Clean(s)
    requires s != "" && StartsComment(s[|s| - 1], c) ==> Quoted(s, |s| - 1)
    ensures Clean(s + [c])
  {
    var t := s + [c];
    forall i | 0 <= i < |t| - 1 && StartsComment(t[i], t[i + 1]) ensures Quoted(t, i) {
      QuotedOfPrefix(s, [c], i);
      if i < |s| - 1 { assert StartsComment(s[i], s[i + 1]); }
    }
  }

  // The output so far read on its own: clean, with the same strings open, and with
  // the same look-back as the text read. After a slash the text holds no comment start.
  ghost predicate Sim(s: string, st: State) {
    && st.pos <= |s| && Clean(st.out) && Quoted(st.out, |st.out|) == st.quoted
    && (st.inside == None ==>
          && EndsInBackslash(s, st.pos) == EndsInBackslash(st.out, |st.out|)
          && LookBack(s, st.pos) == LookBack(st.out, |st.out|)
          && (st.out != "" && !st.quoted && st.out[|st.out| - 1] == '/' && st.pos < |s| ==>
                !StartsComment('/', s[st.pos])))
  }

  // A character of the text goes out as it is.
  lemma SimCopy(s: string, st: State)
    requires Sim(s, st) && st.pos < |s| && st.inside == None && Plan(s, st).inside == None
    ensures Sim(s, Step(s, st))
  {
    var c, out, t := s[st.pos], st.out, Step(s, st);
    assert t.out == out + [c];
    assert Escaped(s, st.pos) == LookBack(s, st.pos);
    QuotedAppend(out, c);
    if out != "" && StartsComment(out[|out| - 1], c) {
      assert Quoted(out, |out|) == Quoted(out, |out| - 1);
    }
    CleanAppend(out, c);
    assert EndsInBackslash(t.out, |t.out| - 1) == EndsInBackslash(out, |out|);
  }

  // White space that stands for a comment or ends its line.
  lemma SimSpace(out: string, c: char)
    requires Clean(out) && c != '/' && c != '*' && c != '"'
    ensures Clean(out + [c]) && Quoted(out + [c], |out| + 1) == Quoted(out, |out|)
  {
    QuotedAppend(out, c);
    CleanAppend(out, c);
  }

  predicate Blank(c: char) {
    c == ' ' || c == '\r' || c == '\n'
  }

  lemma {:induction false} SimBlanks(out: string, more: string)
    requires Clean(out) && forall i :: 0 <= i < |more| ==> Blank(more[i])
    ensures Clean(out + more) && Quoted(out + more, |out + more|) == Quoted(out, |out|)
  {
    if more == "" {
      assert out + more == out;
    } else {
      var n := |more| - 1;
      SimBlanks(out, more[..n]);
      SimSpace(out + more[..n], more[n]);
      assert out + more == out + more[..n] + [more[n]];
    }
  }

  lemma SimComment(s: string, st: State)
    requires Sim(s, st) && st.pos < |s| && st.inside != None
    ensures Sim(s, Step(s, st))
  {
    var m, t := Plan(s, st), Step(s, st);
    SimBlanks(st.out, m.emit);
    if t.inside == None {
      assert s[t.pos - 1] == '/' || s[t.pos - 1] == '\n';
      assert t.out[|t.out| - 1] == m.emit[|m.emit| - 1] && Blank(m.emit[|m.emit| - 1]);
    }
  }

  lemma {:induction false} SimRun(s: string, st: State)
    requires Sim(s, st)
    ensures Sim(s, Run(s, st))
    decreases |s| - st.pos
  {
    if st.pos < |s| {
      if st.inside != None {
        SimComment(s, st);
      } else if Plan(s, st).inside == None {
        SimCopy(s, st);
      } else {
        assert st.out + "" == st.out;
      }
      SimRun(s, Step(s, st));
    }
  }

  // Main result: no comment is left, whatever the text was.
  lemma StripIsClean(s: string)
    ensures Clean(Strip(s))
  {
    SimRun(s, START);
  }

  lemma {:induction false} CleanRun(s: string, st: State)
    requires Clean(s) && st.pos <= |s|
    requires st.inside == None && st.out == s[..st.pos] && st.quoted == Quoted(s, st.pos)
    ensures Run(s, st).out == s
    decreases |s| - st.pos
  {
    if st.pos == |s| {
      assert s[..|s|] == s;
    } else {
      var t := Step(s, st);
      assert s[..st.pos + 1] == s[..st.pos] + [s[st.pos]];
      if st.pos + 1 < |s| && StartsComment(s[st.pos], s[st.pos + 1]) {
        assert Quoted(s, st.pos);
      }
      CleanRun(s, t);
    }
  }

  // Main result: stripping leaves exactly the comment-free texts as they are.
  lemma FixedIffClean(s: string)
    ensures Strip(s) == s <==> Clean(s)
  {
    StripIsClean(s);
    if Clean(s) { CleanRun(s, START); }
  }

  // Main result: stripping twice is stripping once.
  lemma StripTwice(s: string)
    ensures Strip(Strip(s)) == Strip(s)
  {
    StripIsClean(s);
    FixedIffClean(Strip(s));
  }

  // ---- What a comment leaves -----------------------------------------------------------

  // A text to which a comment can be added: none in it, no string open, no slash at its end.
  ghost predicate Plain(a: string) {
    Clean(a) && !Quoted(a, |a|) && (a == "" || a[|a| - 1] != '/')
  }

  predicate NoCloser(c: string) {
    forall i :: 0 <= i < |c| - 1 ==> !(c[i] == '*' && c[i + 1] == '/')
  }

  // A stretch of a comment without a line end, before a line end or something else.
  predicate OneLineOnly(c: string) {
    '\n' !in c && (c == "" || c[|c| - 1] != '\r')
  }

  predicate IsLineEnd(e: string) {
    e == "\n" || e == "\r\n"
  }

  // The machine outside strings and comments at `i`, having put out `out`.
  function Outside(i: nat, out: string): State {
    State(i, None, false, false, out)
  }

  // The machine in a comment.
  function Within(i: nat, inside: Inside, pending: bool, out: string): State {
    State(i, inside, false, pending, out)
  }

  // A quote opens or closes a string, unless a backslash is before it that has none before it.
  lemma QuotesToggle(t: string, c: char)
    requires c != '\\'
    ensures Toggles("\"", 0) && Toggles(t + [c, '"'], |t| + 1) && Toggles(t + "\\\\\"", |t| + 2)
    ensures !Toggles("\\\"", 1) && !Toggles(t + [c, '\\', '"'], |t| + 2)
    ensures c != '"' ==> !Toggles(t + [c], |t|)
  {
  }

  // ---- Getting from one state to another -----------------------------------------------

  ghost predicate Steps(s: string, path: seq<State>, k: nat)
    requires k + 1 < |path|
  {
    path[k].pos < |s| && path[k + 1] == Step(s, path[k])
  }

  ghost predicate Path(s: string, st: State, t: State, path: seq<State>) {
    && path != [] && path[0] == st && path[|path| - 1] == t
    && forall k: nat {:trigger Steps(s, path, k)} :: k + 1 < |path| ==> Steps(s, path, k)
  }

  // The machine gets from `st` to `t`.
  ghost predicate Leads(s: string, st: State, t: State) {
    exists path {:trigger Path(s, st, t, path)} :: Path(s, st, t, path)
  }

  lemma LeadsStep(s: string, st: State)
    requires st.pos < |s|
    ensures Leads(s, st, Step(s, st)) && Leads(s, st, st)
  {
    assert Path(s, st, st, [st]);
    assert Path(s, st, Step(s, st), [st, Step(s, st)]);
  }

  lemma LeadsNowhere(s: string, st: State)
    ensures Leads(s, st, st)
  {
    assert Path(s, st, st, [st]);
  }

  lemma LeadsOn(s: string, st: State, t: State, u: State)
    requires Leads(s, st, t) && Leads(s, t, u)
    ensures Leads(s, st, u)
  {
    var p :| Path(s, st, t, p);
    var q :| Path(s, t, u, q);
    var r := p + q[1..];
    forall k: nat | k + 1 < |r| ensures Steps(s, r, k) {
      if k + 1 < |p| { assert Steps(s, p, k); } else { assert Steps(s, q, k + 1 - |p|); }
    }
    assert Path(s, st, u, r);
  }

  lemma LeadsRun(s: string, st: State, t: State)
    requires Leads(s, st, t) && t.pos <= |s|
    ensures st.pos <= |s| && Run(s, st) == Run(s, t)
  {
    var p :| Path(s, st, t, p);
    PathRun(s, st, t, p);
  }

  lemma {:induction false} PathRun(s: string, st: State, t: State, p: seq<State>)
    requires Path(s, st, t, p) && t.pos <= |s|
    ensures st.pos <= |s| && Run(s, st) == Run(s, t)
    decreases |p|
  {
    if |p| > 1 {
      assert Steps(s, p, 0);
      forall k: nat | k + 1 < |p| - 1 ensures Steps(s, p[1..], k) { assert Steps(s, p, k + 1); }
      PathRun(s, p[1], t, p[1..]);
    }
  }

  // A plain text goes out as it is, whatever follows.
  lemma {:induction false} PlainRuns(a: string, rest: string, n: nat)
    requires Plain(a) && n <= |a|
    ensures Leads(a + rest, START, State(n, None, Quoted(a, n), false, a[..n]))
  {
    if n == 0 {
      LeadsNowhere(a + rest, START);
    } else {
      var m := n - 1;
      var st := State(m, None, Quoted(a, m), false, a[..m]);
      var next := State(n, None, Quoted(a, n), false, a[..n]);
      PlainRuns(a, rest, m);
      PlainStep(a, rest, m);
      assert a[..n] == a[..m] + [a[m]];
      assert Step(a + rest, st) == next;
      LeadsStep(a + rest, st);
      LeadsOn(a + rest, START, st, next);
    }
  }

  lemma PlainStep(a: string, rest: string, m: nat)
    requires Plain(a) && m < |a|
    ensures var s, st := a + rest, State(m, None, Quoted(a, m), false, a[..m]);
            Plan(s, st) == Move(1, None, Quoted(a, m + 1), false, [a[m]])
  {
    var s := a + rest;
    assert s[m] == a[m] && (m > 0 ==> s[m - 1] == a[m - 1]) && (m > 1 ==> s[m - 2] == a[m - 2]);
    assert Toggles(s, m) == Toggles(a, m);
    if m + 1 < |a| {
      assert s[m + 1] == a[m + 1];
      assert StartsComment(a[m], a[m + 1]) ==> Quoted(a, m);
    }
  }

  // What was put out before makes no difference.
  lemma {:induction false} RunAppends(s: string, st: State, out: string)
    requires st.pos <= |s|
    ensures Run(s, st.(out := out + st.out)) == Run(s, st).(out := out + Run(s, st).out)
    decreases |s| - st.pos
  {
    if st.pos < |s| {
      var t := Step(s, st);
      assert (out + st.out) + Plan(s, st).emit == out + t.out;
      assert Plan(s, st.(out := out + st.out)) == Plan(s, st);
      RunAppends(s, t, out);
    }
  }

  lemma PlanShifts(pre: string, s: string, st: State)
    requires !EndsInBackslash(pre, |pre|) && st.pos < |s|
    ensures Plan(pre + s, st.(pos := |pre| + st.pos)) == Plan(s, st)
  {
    var u, i := pre + s, st.pos;
    assert u[|pre| + i] == s[i] && Next(u, |pre| + i) == Next(s, i);
    assert (i > 0 ==> u[|pre| + i - 1] == s[i - 1]) && (i > 1 ==> u[|pre| + i - 2] == s[i - 2]);
    assert Toggles(u, |pre| + i) == Toggles(s, i);
  }

  lemma StepShifts(pre: string, s: string, st: State)
    requires !EndsInBackslash(pre, |pre|) && st.pos < |s|
    ensures Step(pre + s, st.(pos := |pre| + st.pos)) == Step(s, st).(pos := |pre| + Step(s, st).pos)
  {
    PlanShifts(pre, s, st);
  }

  // After a text that does not end in a backslash the rest is read as on its own.
  lemma {:induction false} RunShifts(pre: string, s: string, u: string, st: State)
    requires !EndsInBackslash(pre, |pre|) && st.pos <= |s| && u == pre + s
    ensures Run(u, st.(pos := |pre| + st.pos)) == Run(s, st).(pos := |pre| + |s|)
    decreases |s| - st.pos
  {
    if st.pos < |s| {
      StepShifts(pre, s, st);
      RunOn(u, st.(pos := |pre| + st.pos));
      RunShifts(pre, s, u, Step(s, st));
    }
  }

  // Within a comment, up to `j`, nothing ends it and no line ends.
  predicate GoesOn(s: string, k: nat, inside: Inside)
    requires k < |s|
  {
    && s[k] != '\n' && !(s[k] == '\r' && Next(s, k) == '\n')
    && (inside == MultiLine ==> !(s[k] == '*' && Next(s, k) == '/'))
  }

  lemma {:induction false} CommentRuns(s: string, i: nat, j: nat, inside: Inside, pending: bool, out: string)
    requires i <= j <= |s| && inside != None && forall k :: i <= k < j ==> GoesOn(s, k, inside)
    ensures Leads(s, Within(i, inside, pending, out), Within(j, inside, pending || i < j, out))
    decreases j - i
  {
    var st := Within(i, inside, pending, out);
    LeadsNowhere(s, st);
    if i < j {
      var next := Within(i + 1, inside, true, out);
      assert GoesOn(s, i, inside);
      assert out + "" == out;
      assert Step(s, st) == next;
      LeadsStep(s, st);
      CommentRuns(s, i + 1, j, inside, true, out);
      LeadsOn(s, st, next, Within(j, inside, true, out));
    }
  }

  // `w` stands in `s` from `i` on.
  ghost predicate At(s: string, i: nat, w: string) {
    i + |w| <= |s| && s[i..i + |w|] == w
  }

  lemma AtSum(s: string, i: nat, v: string, w: string)
    ensures At(s, i, v + w) <==> At(s, i, v) && At(s, i + |v|, w)
  {
    if i + |v| + |w| <= |s| {
      var u := s[i..i + |v| + |w|];
      assert u == s[i..i + |v|] + s[i + |v|..i + |v| + |w|];
      assert u[..|v|] == s[i..i + |v|] && u[|v|..] == s[i + |v|..i + |v| + |w|];
      assert (v + w)[..|v|] == v && (v + w)[|v|..] == w;
    }
  }

  lemma AtChar(s: string, i: nat, w: string, k: nat)
    requires At(s, i, w) && k < |w|
    ensures s[i + k] == w[k]
  {
    assert s[i..i + |w|][k] == w[k];
  }

  // A stretch of a comment without a line end and without its close, if `d` comes next.
  predicate Stretch(l: string, d: char) {
    && '\n' !in l && NoCloser(l)
    && (l != "" ==> !(l[|l| - 1] == '\r' && d == '\n') && !(l[|l| - 1] == '*' && d == '/'))
  }

  // What comes next behind the first `i` characters.
  function NextAt(s: string, i: nat): char {
    if i < |s| then s[i] else '\0'
  }

  lemma StretchGoesOn(s: string, i: nat, l: string, inside: Inside)
    requires At(s, i, l) && '\n' !in l && (inside == MultiLine ==> Stretch(l, NextAt(s, i + |l|)))
    requires l != "" && l[|l| - 1] == '\r' ==> NextAt(s, i + |l|) != '\n'
    ensures forall k :: i <= k < i + |l| ==> GoesOn(s, k, inside)
  {
    forall k | i <= k < i + |l| ensures GoesOn(s, k, inside) {
      var m := k - i;
      AtChar(s, i, l, m);
      assert l[m] in l;
      if m + 1 < |l| {
        AtChar(s, i, l, m + 1);
        assert l[m + 1] in l;
      }
    }
  }

  // The machine reads on over a stretch.
  lemma StretchRuns(s: string, i: nat, l: string, inside: Inside, pending: bool, out: string)
    requires At(s, i, l) && '\n' !in l && inside != None
    requires inside == MultiLine ==> Stretch(l, NextAt(s, i + |l|))
    requires l != "" && l[|l| - 1] == '\r' ==> NextAt(s, i + |l|) != '\n'
    ensures Leads(s, Within(i, inside, pending, out), Within(i + |l|, inside, pending || l != "", out))
  {
    StretchGoesOn(s, i, l, inside);
    CommentRuns(s, i, i + |l|, inside, pending, out);
  }

  // The opening of a comment behind a plain text.
  lemma CommentOpens(s: string, a: string, d: char)
    requires Plain(a) && StartsComment('/', d) && At(s, 0, a) && At(s, |a|, ['/', d])
    ensures Leads(s, START, Within(|a| + 2, if d == '/' then SingleLine else MultiLine, true, a))
  {
    var rest := s[|a|..];
    assert s == a + rest;
    PlainRuns(a, rest, |a|);
    assert a[..|a|] == a;
    OpensStep(s, |a|, d, a);
    LeadsOn(s, START, Outside(|a|, a), Within(|a| + 2, if d == '/' then SingleLine else MultiLine, true, a));
  }

  lemma OpensStep(s: string, i: nat, d: char, out: string)
    requires StartsComment('/', d) && At(s, i, ['/', d])
    ensures Leads(s, Outside(i, out), Within(i + 2, if d == '/' then SingleLine else MultiLine, true, out))
  {
    AtChar(s, i, ['/', d], 0);
    AtChar(s, i, ['/', d], 1);
    assert out + "" == out;
    LeadsStep(s, Outside(i, out));
  }

  // A line end in or after a comment: a stretch before it leaves one space.
  lemma LineEnds(s: string, i: nat, e: string, inside: Inside, pending: bool, out: string, out': string)
    requires inside != None && IsLineEnd(e) && At(s, i, e)
    requires out' == out + ((if pending then " " else "") + e)
    ensures Leads(s, Within(i, inside, pending, out),
                  State(i + |e|, if inside == SingleLine then None else MultiLine, false, false, out'))
  {
    AtChar(s, i, e, 0);
    if |e| > 1 { AtChar(s, i, e, 1); }
    LeadsStep(s, Within(i, inside, pending, out));
  }

  lemma BlockCloses(s: string, i: nat, pending: bool, out: string)
    requires At(s, i, "*/")
    ensures Leads(s, Within(i, MultiLine, pending, out), Outside(i + 2, out + " "))
  {
    AtChar(s, i, "*/", 0);
    AtChar(s, i, "*/", 1);
    LeadsStep(s, Within(i, MultiLine, pending, out));
  }

  // Behind the end of a comment everything is read as on its own.
  lemma RestRuns(s: string, i: nat, out: string)
    requires Leads(s, START, Outside(i, out)) && i <= |s| && !EndsInBackslash(s, i)
    ensures Strip(s) == out + Strip(s[i..])
  {
    LeadsRun(s, START, Outside(i, out));
    RestIsOwn(s[..i], s[i..], out);
    assert s == s[..i] + s[i..];
  }

  lemma RestIsOwn(pre: string, rest: string, out: string)
    requires !EndsInBackslash(pre, |pre|)
    ensures Run(pre + rest, Outside(|pre|, out)).out == out + Strip(rest)
  {
    RunShifts(pre, rest, pre + rest, Outside(0, out));
    RunAppends(rest, START, out);
    assert out + "" == out;
  }

  // ---- Comments of one line ---------------------------------------------------------------

  // A text put together from four parts, and where they stand.
  lemma FourParts(a: string, b: string, c: string, d: string)
    ensures var s := a + b + c + d;
            && At(s, 0, a) && At(s, |a|, b) && At(s, |a| + |b|, c) && At(s, |a| + |b| + |c|, d)
            && s[|a| + |b| + |c|..] == d
  {
    AtSum(a + b + c + d, 0, a + b + c, d);
    AtSum(a + b + c + d, 0, a + b, c);
    AtSum(a + b + c + d, 0, a, b);
  }

  lemma FiveParts(a: string, b: string, c: string, d: string, e: string)
    ensures var s := a + b + c + d + e;
            && At(s, 0, a) && At(s, |a|, b) && At(s, |a| + |b|, c) && At(s, |a| + |b| + |c|, d)
            && s[|a| + |b| + |c| + |d|..] == e
  {
    FourParts(a, b, c, d);
    AtSum(a + b + c + d + e, 0, a + b + c + d, e);
    AtSum(a + b + c + d + e, 0, a + b + c, d);
    AtSum(a + b + c + d + e, 0, a + b, c);
    AtSum(a + b + c + d + e, 0, a, b);
  }

  // A whole comment with the end of its line.
  lemma LineCommentRuns(s: string, i: nat, c: string, e: string, out: string, out': string)
    requires At(s, i, c) && At(s, i + |c|, e) && out' == out + (" " + e)
    requires '\n' !in c && IsLineEnd(e) && (e == "\n" ==> c == "" || c[|c| - 1] != '\r')
    ensures Leads(s, Within(i, SingleLine, true, out), Outside(i + |c| + |e|, out'))
  {
    var at := i + |c|;
    AtChar(s, at, e, 0);
    StretchRuns(s, i, c, SingleLine, true, out);
    LineEnds(s, at, e, SingleLine, true, out, out');
    LeadsOn(s, Within(i, SingleLine, true, out), Within(at, SingleLine, true, out), Outside(at + |e|, out'));
  }

  // Main result: a comment up to the end of its line leaves one space and the line end, and
  // the text behind it is read as a text of its own.
  lemma LineCommentLeaves(a: string, c: string, e: string, b: string)
    requires Plain(a) && '\n' !in c && IsLineEnd(e) && (e == "\n" ==> c == "" || c[|c| - 1] != '\r')
    ensures Strip(a + "//" + c + e + b) == a + " " + e + Strip(b)
  {
    var s, out := a + "//" + c + e + b, a + " " + e;
    FiveParts(a, "//", c, e, b);
    CommentOpens(s, a, '/');
    JoinRight(a, " ", e);
    var i := |a| + 2;
    LineCommentRuns(s, i, c, e, a, out);
    LeadsOn(s, START, Within(i, SingleLine, true, a), Outside(i + |c| + |e|, out));
    AtChar(s, i + |c|, e, |e| - 1);
    RestRuns(s, i + |c| + |e|, out);
  }

  // At the end of the text it leaves nothing.
  lemma LastLineCommentLeaves(a: string, c: string)
    requires Plain(a) && '\n' !in c
    ensures Strip(a + "//" + c) == a
  {
    var s := a + "//" + c;
    FourParts(a, "//", c, "");
    assert s == a + "//" + c + "";
    CommentOpens(s, a, '/');
    StretchRuns(s, |a| + 2, c, SingleLine, true, a);
    EndsWithin(s, |a| + 2, SingleLine, true, a);
  }

  // The text ends within a comment.
  lemma EndsWithin(s: string, i: nat, inside: Inside, pending: bool, out: string)
    requires inside != None && Leads(s, START, Within(i, inside, pending, out))
    requires Leads(s, Within(i, inside, pending, out), Within(|s|, inside, true, out))
          || Leads(s, Within(i, inside, pending, out), Within(|s|, inside, pending, out))
    ensures Strip(s) == out
  {
    var p := Leads(s, Within(i, inside, pending, out), Within(|s|, inside, true, out)) || pending;
    LeadsOn(s, START, Within(i, inside, pending, out), Within(|s|, inside, p, out));
    LeadsRun(s, START, Within(|s|, inside, p, out));
  }

  // Main result: a block comment leaves one space, and the text behind it is read as a text
  // of its own.
  lemma BlockCommentLeaves(a: string, c: string, b: string)
    requires Plain(a) && Stretch(c, '*')
    ensures Strip(a + "/*" + c + "*/" + b) == a + " " + Strip(b)
  {
    var s := a + "/*" + c + "*/" + b;
    FiveParts(a, "/*", c, "*/", b);
    CommentOpens(s, a, '*');
    CloseOfComment(s, |a| + 2, c, true, a);
  }

  // The last line of a block comment.
  lemma CloseOfComment(s: string, i: nat, c: string, pending: bool, out: string)
    requires At(s, i, c) && At(s, i + |c|, "*/") && Stretch(c, '*')
    requires Leads(s, START, Within(i, MultiLine, pending, out))
    ensures Strip(s) == out + " " + Strip(s[i + |c| + 2..])
  {
    var end, pending' := i + |c|, pending || c != "";
    AtChar(s, end, "*/", 0);
    StretchRuns(s, i, c, MultiLine, pending, out);
    BlockCloses(s, end, pending', out);
    LeadsOn(s, START, Within(i, MultiLine, pending, out), Within(end, MultiLine, pending', out));
    LeadsOn(s, START, Within(end, MultiLine, pending', out), Outside(end + 2, out + " "));
    AtChar(s, end, "*/", 1);
    RestRuns(s, end + 2, out + " ");
  }

  // ---- Comments of several lines ----------------------------------------------------------

  datatype Line = Line(text: string, end: string)

  // A line of a block comment that is not closed in it.
  predicate IsLine(l: Line) {
    IsLineEnd(l.end) && Stretch(l.text, l.end[0])
  }

  ghost predicate AllLines(ls: seq<Line>) {
    forall l :: l in ls ==> IsLine(l)
  }

  function Joined(ls: seq<Line>): string {
    if ls == [] then "" else ls[0].text + ls[0].end + Joined(ls[1..])
  }

  // A line leaves its line end, and a space if there was anything in it.
  function Blank1(l: Line): string {
    (if l.text == "" then "" else " ") + l.end
  }

  function Blanked(ls: seq<Line>): string {
    if ls == [] then "" else Blank1(ls[0]) + Blanked(ls[1..])
  }

  lemma LineLeaves(s: string, i: nat, l: Line, pending: bool, out: string, out': string)
    requires IsLine(l) && At(s, i, l.text) && At(s, i + |l.text|, l.end)
    requires out' == out + ((if pending || l.text != "" then " " else "") + l.end)
    ensures Leads(s, Within(i, MultiLine, pending, out), Within(i + |l.text| + |l.end|, MultiLine, false, out'))
  {
    var at, pending' := i + |l.text|, pending || l.text != "";
    AtChar(s, at, l.end, 0);
    StretchRuns(s, i, l.text, MultiLine, pending, out);
    LineEnds(s, at, l.end, MultiLine, pending', out, out');
    LeadsOn(s, Within(i, MultiLine, pending, out), Within(at, MultiLine, pending', out),
            Within(at + |l.end|, MultiLine, false, out'));
  }

  lemma {:induction false} LinesLeave(s: string, i: nat, ls: seq<Line>, j: nat, out: string, out': string)
    requires AllLines(ls) && At(s, i, Joined(ls)) && j == i + |Joined(ls)| && out' == out + Blanked(ls)
    ensures Leads(s, Within(i, MultiLine, false, out), Within(j, MultiLine, false, out'))
    decreases |ls|
  {
    if ls == [] {
      assert out + "" == out;
      LeadsNowhere(s, Within(i, MultiLine, false, out));
    } else {
      var l, more := ls[0], Joined(ls[1..]);
      var next := i + |l.text| + |l.end|;
      AtSum(s, i, l.text + l.end, more);
      AtSum(s, i, l.text, l.end);
      var out1 := out + Blank1(l);
      LineLeaves(s, i, l, false, out, out1);
      JoinRight(out, Blank1(l), Blanked(ls[1..]));
      LinesLeave(s, next, ls[1..], j, out1, out');
      LeadsOn(s, Within(i, MultiLine, false, out), Within(next, MultiLine, false, out1),
              Within(j, MultiLine, false, out'));
    }
  }

  lemma JoinRight(a: string, b: string, c: string)
    ensures a + b + c == a + (b + c)
  {
  }

  // The first line of a comment with the two characters that open it, and its other lines.
  function Opened(first: Line, ls: seq<Line>): string {
    "/*" + (first.text + first.end) + Joined(ls)
  }

  // A block comment behind a plain text, up to a line end within it.
  lemma BlockRuns(s: string, a: string, first: Line, ls: seq<Line>, j: nat, out: string, out': string)
    requires Plain(a) && IsLine(first) && AllLines(ls) && At(s, 0, a) && At(s, |a|, Opened(first, ls))
    requires j == |a| + |Opened(first, ls)| && out == a + (" " + first.end) && out' == out + Blanked(ls)
    ensures Leads(s, START, Within(j, MultiLine, false, out'))
  {
    var next := |a| + 2 + |first.text| + |first.end|;
    OpenedParts(s, |a|, first, ls);
    FirstLineRuns(s, a, first, out);
    LinesLeave(s, next, ls, j, out, out');
    LeadsOn(s, START, Within(next, MultiLine, false, out), Within(j, MultiLine, false, out'));
  }

  lemma FirstLineRuns(s: string, a: string, first: Line, out: string)
    requires Plain(a) && IsLine(first) && At(s, 0, a) && At(s, |a|, "/*") && At(s, |a| + 2, first.text)
    requires At(s, |a| + 2 + |first.text|, first.end) && out == a + (" " + first.end)
    ensures Leads(s, START, Within(|a| + 2 + |first.text| + |first.end|, MultiLine, false, out))
  {
    var i := |a| + 2;
    CommentOpens(s, a, '*');
    LineLeaves(s, i, first, true, a, out);
    LeadsOn(s, START, Within(i, MultiLine, true, a),
            Within(i + |first.text| + |first.end|, MultiLine, false, out));
  }

  lemma OpenedParts(s: string, i: nat, first: Line, ls: seq<Line>)
    requires At(s, i, Opened(first, ls))
    ensures At(s, i, "/*") && At(s, i + 2, first.text) && At(s, i + 2 + |first.text|, first.end)
    ensures At(s, i + 2 + |first.text| + |first.end|, Joined(ls))
  {
    var line := first.text + first.end;
    AtSum(s, i, "/*" + line, Joined(ls));
    AtSum(s, i, "/*", line);
    AtSum(s, i + 2, first.text, first.end);
  }

  // Main result: with line ends in it, it leaves these, and a space for every line that was
  // not empty and for the last one.
  lemma LongCommentLeaves(a: string, first: Line, ls: seq<Line>, c: string, b: string)
    requires Plain(a) && IsLine(first) && AllLines(ls) && Stretch(c, '*')
    ensures Strip(a + Opened(first, ls) + c + "*/" + b)
         == a + (" " + first.end) + Blanked(ls) + " " + Strip(b)
  {
    var open := Opened(first, ls);
    var s := a + open + c + "*/" + b;
    FiveParts(a, open, c, "*/", b);
    var out := a + (" " + first.end);
    BlockRuns(s, a, first, ls, |a| + |open|, out, out + Blanked(ls));
    CloseOfComment(s, |a| + |open|, c, false, out + Blanked(ls));
  }

  // What is not closed leaves nothing but the line ends in it.
  lemma OpenCommentLeaves(a: string, c: string)
    requires Plain(a) && Stretch(c, '\0')
    ensures Strip(a + "/*" + c) == a
  {
    var s := a + "/*" + c;
    FourParts(a, "/*", c, "");
    assert s == a + "/*" + c + "";
    CommentOpens(s, a, '*');
    EndsOpen(s, |a| + 2, c, true, a);
  }

  lemma EndsOpen(s: string, i: nat, c: string, pending: bool, out: string)
    requires At(s, i, c) && i + |c| == |s| && Stretch(c, '\0') && Leads(s, START, Within(i, MultiLine, pending, out))
    ensures Strip(s) == out
  {
    StretchRuns(s, i, c, MultiLine, pending, out);
    EndsWithin(s, i, MultiLine, pending, out);
  }

  lemma LongOpenCommentLeaves(a: string, first: Line, ls: seq<Line>, c: string)
    requires Plain(a) && IsLine(first) && AllLines(ls) && Stretch(c, '\0')
    ensures Strip(a + Opened(first, ls) + c) == a + (" " + first.end) + Blanked(ls)
  {
    var open := Opened(first, ls);
    var s := a + open + c;
    FourParts(a, open, c, "");
    assert s == a + open + c + "";
    var out1 := a + (" " + first.end);
    var out := out1 + Blanked(ls);
    BlockRuns(s, a, first, ls, |a| + |open|, out1, out);
    EndsOpen(s, |a| + |open|, c, false, out);
  }

  // Every text is comment-free or has a first comment behind a plain text.
  lemma FirstComment(s: string) returns (a: string, d: char, rest: string)
    requires !Clean(s)
    ensures Plain(a) && StartsComment('/', d) && s == a + ['/', d] + rest
  {
    var k :| 0 <= k < |s| - 1 && StartsComment(s[k], s[k + 1]) && !Quoted(s, k);
    assert StartsAt(s, k);
    var i := FirstStart(s, |s| - 1);
    a, d, rest := s[..i], s[i + 1], s[i + 2..];
    assert s == a + (['/', d] + rest);
    assert s == a + ['/', d] + rest;
    PlainBefore(s, i);
  }

  predicate StartsAt(s: string, i: nat)
    requires i < |s|
  {
    i + 1 < |s| && StartsComment(s[i], s[i + 1]) && !Quoted(s, i)
  }

  lemma {:induction false} FirstStart(s: string, n: nat) returns (i: nat)
    requires n < |s| && exists k :: 0 <= k < n && StartsAt(s, k)
    ensures i < n && StartsAt(s, i) && forall k :: 0 <= k < i ==> !StartsAt(s, k)
  {
    if exists k :: 0 <= k < n - 1 && StartsAt(s, k) { i := FirstStart(s, n - 1); } else { i := n - 1; }
  }

  lemma PlainBefore(s: string, i: nat)
    requires i < |s| && StartsAt(s, i) && forall k :: 0 <= k < i ==> !StartsAt(s, k)
    ensures Plain(s[..i])
  {
    var a := s[..i];
    assert s == a + s[i..];
    forall k | 0 <= k < |a| - 1 && StartsComment(a[k], a[k + 1]) ensures Quoted(a, k) {
      QuotedOfPrefix(a, s[i..], k);
      assert !StartsAt(s, k);
    }
    QuotedOfPrefix(a, s[i..], i);
    assert i > 0 ==> !StartsAt(s, i - 1);
    assert i > 0 && s[i - 1] == '/' ==> Quoted(s, i) == Quoted(s, i - 1);
  }
}
