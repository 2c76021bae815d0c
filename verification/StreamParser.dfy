/**
 The stream parser: fragments of a subprocess's output are assembled into lines, each line is
 decoded into an event, and the event's parts are mapped to display chunks.
 */
module StreamParser {
  import opened Wrappers

  datatype Fd = Stdout | Stderr

  datatype Chunk = Chunk(kind: string, text: string)

  /**
   One part of a message, with its fields already rendered: `file` is the path an edit tool is
   about to touch, or empty.
   */
  datatype Part =
    | Text(text: string)
    | Thinking(text: string)
    | ToolUse(id: string, name: string, input: string, file: string)
    | ToolResult(useId: string, isError: bool, rendered: string)
    | Unknown

  /** A decoded event; system, result and unknown events map to chunks on their own. */
  datatype Event =
    | Assistant(parts: seq<Part>)
    | User(parts: seq<Part>)
    | Other(chunks: seq<Chunk>)

  datatype Decoded = NotJson | NotObject | Object(event: Event)

  /** The JSON decoder and the test for a line of nothing but white space. */
  datatype Reader = Reader(decode: string -> Decoded, blank: string -> bool)

  const EDIT_LIKE_TOOLS: set<string> := {"Edit", "Write", "NotebookEdit", "MultiEdit"}

  // ---- What a transcript should look like ----

  datatype Use = Use(id: string, name: string)

  function NameOf(name: string): string {
    if name == "" then "?" else name
  }

  /** The name most recently announced under an id. */
  function Latest(history: seq<Use>, id: string): Option<string> {
    if history == [] then None
    else if history[|history| - 1].id == id then Some(history[|history| - 1].name)
    else Latest(history[..|history| - 1], id)
  }

  /** A result is labelled by the latest use with its id, else by the id, else by "tool". */
  function Label(history: seq<Use>, useId: string): string {
    if useId == "" then "tool"
    else match Latest(history, useId)
      case Some(name) => name
      case None => useId
  }

  function Terminated(text: string): string {
    if text != "" && text[|text| - 1] == '\n' then text else text + "\n"
  }

  function AssistantChunks(part: Part): seq<Chunk> {
    match part
    case Text(text) => if text == "" then [] else [Chunk("text", Terminated(text))]
    case Thinking(text) => if text == "" then [] else [Chunk("reasoning", "· thinking: " + text + "\n")]
    case ToolUse(_, name, input, file) =>
      [Chunk("tool_use", "→ Tool(" + NameOf(name) + ") " + input + "\n")]
      + (if NameOf(name) in EDIT_LIKE_TOOLS && file != "" then [Chunk("tool_use", "  file: " + file + "\n")] else [])
    case _ => []
  }

  function UserChunks(history: seq<Use>, part: Part): seq<Chunk> {
    match part
    case ToolResult(useId, isError, rendered) =>
      [Chunk("tool_result", (if isError then "✗" else "←") + " " + Label(history, useId) + ": " + rendered + "\n")]
    case _ => []
  }

  function PartsChunks(history: seq<Use>, user: bool, parts: seq<Part>): seq<Chunk> {
    if parts == [] then []
    else
      var last := parts[|parts| - 1];
      PartsChunks(history, user, parts[..|parts| - 1]) + (if user then UserChunks(history, last) else AssistantChunks(last))
  }

  function PartsUses(parts: seq<Part>): seq<Use> {
    if parts == [] then []
    else
      var last := parts[|parts| - 1];
      PartsUses(parts[..|parts| - 1])
      + (if last.ToolUse? && last.id != "" then [Use(last.id, NameOf(last.name))] else [])
  }

  function EventChunks(history: seq<Use>, event: Event): seq<Chunk> {
    match event
    case Assistant(parts) => PartsChunks(history, false, parts)
    case User(parts) => PartsChunks(history, true, parts)
    case Other(chunks) => chunks
  }

  function EventUses(event: Event): seq<Use> {
    if event.Assistant? then PartsUses(event.parts) else []
  }

  function Without(line: string, c: char): string {
    if line != "" && line[|line| - 1] == c then Without(line[..|line| - 1], c) else line
  }

  /** What the decoder gets: no trailing line feeds, then no trailing carriage returns. */
  function Bare(line: string): string {
    Without(Without(line, '\n'), '\r')
  }

  function LineChunks(r: Reader, history: seq<Use>, line: string): seq<Chunk> {
    if r.blank(Bare(line)) then []
    else match r.decode(Bare(line))
      case Object(event) => EventChunks(history, event)
      case _ => [Chunk("stdout", line)]
  }

  function LineUses(r: Reader, line: string): seq<Use> {
    if r.blank(Bare(line)) then []
    else match r.decode(Bare(line))
      case Object(event) => EventUses(event)
      case _ => []
  }

  /** All tool uses announced on the lines, in order. */
  function Uses(r: Reader, lines: seq<string>): seq<Use> {
    if lines == [] then [] else Uses(r, lines[..|lines| - 1]) + LineUses(r, lines[|lines| - 1])
  }

  /** The transcript of complete lines: each is decoded on its own, results are labelled by what came before. */
  function Transcript(r: Reader, lines: seq<string>): seq<Chunk> {
    if lines == [] then []
    else
      var n := |lines| - 1;
      Transcript(r, lines[..n]) + LineChunks(r, Uses(r, lines[..n]), lines[n])
  }

  // ---- Lines and fragments ----

  /** The complete lines of a text, each with its line feed; an unterminated rest is not among them. */
  function CompleteLines(text: string): seq<string> {
    if text == "" then []
    else
      var rest := CompleteLines(text[1..]);
      if text[0] == '\n' then ["\n"] + rest
      else if rest == [] then []
      else [[text[0]] + rest[0]] + rest[1..]
  }

  function Rest(text: string): string {
    if text == "" then ""
    else if text[0] == '\n' || CompleteLines(text[1..]) != [] then Rest(text[1..])
    else text
  }

  predicate EndsLine(fragment: string) {
    fragment != "" && fragment[|fragment| - 1] == '\n'
  }

  /** The fragments the parser joins into lines: it looks only at how a fragment ends. */
  function Assembled(fragments: seq<string>): seq<string> {
    if fragments == [] then []
    else
      var n := |fragments| - 1;
      Assembled(fragments[..n])
      + (if EndsLine(fragments[n]) then [Waiting(fragments[..n]) + fragments[n]] else [])
  }

  function Waiting(fragments: seq<string>): string {
    if fragments == [] then ""
    else
      var n := |fragments| - 1;
      if EndsLine(fragments[n]) then "" else Waiting(fragments[..n]) + fragments[n]
  }

  function Joined(fragments: seq<string>): string {
    if fragments == [] then "" else Joined(fragments[..|fragments| - 1]) + fragments[|fragments| - 1]
  }

  /** A line feed, if there is one, ends the fragment. */
  predicate FeedOnlyAtEnd(fragment: string) {
    forall i :: 0 <= i < |fragment| - 1 ==> fragment[i] != '\n'
  }

  function Feeds(text: string): nat {
    if text == "" then 0 else Feeds(text[..|text| - 1]) + (if text[|text| - 1] == '\n' then 1 else 0)
  }

  lemma {:induction false} FeedsAppend(a: string, b: string)
    ensures Feeds(a + b) == Feeds(a) + Feeds(b)
    decreases |b|
  {
    if b == "" {
      assert a + b == a;
    } else {
      assert (a + b)[..|a + b| - 1] == a + b[..|b| - 1];
      FeedsAppend(a, b[..|b| - 1]);
    }
  }

  lemma {:induction false} NoFeeds(text: string)
    ensures Feeds(text) == 0 <==> forall i :: 0 <= i < |text| ==> text[i] != '\n'
  {
    if text != "" {
      var init := text[..|text| - 1];
      NoFeeds(init);
      assert forall i :: 0 <= i < |init| ==> init[i] == text[i];
    }
  }

  lemma {:induction false} OneLinePerFeed(text: string)
    ensures |CompleteLines(text)| == Feeds(text)
  {
    if text != "" {
      assert text == text[..1] + text[1..];
      FeedsAppend(text[..1], text[1..]);
      assert text[..1][..0] == "";
      OneLinePerFeed(text[1..]);
    }
  }

  /** More text without a line feed only lengthens the rest. */
  lemma {:induction false} AppendPartial(text: string, more: string)
    requires Feeds(more) == 0
    ensures CompleteLines(text + more) == CompleteLines(text) && Rest(text + more) == Rest(text) + more
  {
    if text == "" {
      assert text + more == more;
      NoFeeds(more);
      JustRest(more);
    } else {
      assert (text + more)[1..] == text[1..] + more;
      AppendPartial(text[1..], more);
    }
  }

  lemma {:induction false} JustRest(text: string)
    requires forall i :: 0 <= i < |text| ==> text[i] != '\n'
    ensures CompleteLines(text) == [] && Rest(text) == text
  {
    if text != "" {
      JustRest(text[1..]);
    }
  }

  /** Lines and rest of a text with one more character in front. */
  lemma LinesCons(c: char, text: string)
    ensures CompleteLines([c] + text) ==
      if c == '\n' then ["\n"] + CompleteLines(text)
      else if CompleteLines(text) == [] then []
      else [[c] + CompleteLines(text)[0]] + CompleteLines(text)[1..]
    ensures Rest([c] + text) == if c == '\n' || CompleteLines(text) != [] then Rest(text) else [c] + text
  {
    assert ([c] + text)[1..] == text;
  }

  lemma NoLineIsRest(text: string)
    requires CompleteLines(text) == []
    ensures Rest(text) == text
  {
  }

  /** The line at the end, seen from one character further to the front. */
  lemma EndCons(c: char, tail: string, end: string)
    requires CompleteLines(tail + end) == CompleteLines(tail) + [Rest(tail) + end] && Rest(tail + end) == ""
    ensures CompleteLines([c] + (tail + end)) == CompleteLines([c] + tail) + [Rest([c] + tail) + end]
    ensures Rest([c] + (tail + end)) == ""
  {
    hide CompleteLines, Rest;
    LinesCons(c, tail);
    LinesCons(c, tail + end);
    if CompleteLines(tail) == [] {
      NoLineIsRest(tail);
      assert [c] + (tail + end) == [c] + tail + end;
    }
  }

  /** A line feed completes the rest into a line. */
  lemma {:induction false} AppendEnd(text: string, more: string)
    requires Feeds(more) == 0
    ensures CompleteLines(text + (more + "\n")) == CompleteLines(text) + [Rest(text) + (more + "\n")]
    ensures Rest(text + (more + "\n")) == ""
  {
    hide CompleteLines, Rest, Feeds;
    var end := more + "\n";
    if text == "" {
      assert text + end == end && "" + end == end;
      NoFeeds(more);
      JustRest("");
      JustLine(more);
    } else {
      AppendEnd(text[1..], more);
      EndCons(text[0], text[1..], end);
      assert text == [text[0]] + text[1..] && text + end == [text[0]] + (text[1..] + end);
    }
  }

  lemma {:induction false} JustLine(text: string)
    requires forall i :: 0 <= i < |text| ==> text[i] != '\n'
    ensures CompleteLines(text + "\n") == [text + "\n"] && Rest(text + "\n") == ""
  {
    if text == "" {
      assert text + "\n" == "\n";
      assert "\n"[1..] == "";
    } else {
      assert (text + "\n")[1..] == text[1..] + "\n";
      JustLine(text[1..]);
      assert [text[0]] + (text[1..] + "\n") == text + "\n";
    }
  }

  lemma {:induction false} AssembledLines(fragments: seq<string>)
    requires forall f :: f in fragments ==> FeedOnlyAtEnd(f)
    ensures Assembled(fragments) == CompleteLines(Joined(fragments)) && Waiting(fragments) == Rest(Joined(fragments))
  {
    if fragments != [] {
      var n := |fragments| - 1;
      var f, before := fragments[n], fragments[..n];
      AssembledLines(before);
      assert f in fragments;
      if EndsLine(f) {
        var more := f[..|f| - 1];
        NoFeeds(more);
        assert f == more + "\n";
        AppendEnd(Joined(before), more);
      } else {
        NoFeeds(f);
        AppendPartial(Joined(before), f);
      }
    }
  }

  /** Never more lines than line feeds, and as many only if no fragment has one inside. */
  lemma {:induction false} FeedsBound(fragments: seq<string>)
    ensures |Assembled(fragments)| <= Feeds(Joined(fragments))
    ensures |Assembled(fragments)| == Feeds(Joined(fragments)) ==> forall f :: f in fragments ==> FeedOnlyAtEnd(f)
  {
    if fragments != [] {
      var n := |fragments| - 1;
      var f, before := fragments[n], fragments[..n];
      FeedsBound(before);
      FeedsAppend(Joined(before), f);
      assert fragments == before + [f];
      if EndsLine(f) {
        NoFeeds(f[..|f| - 1]);
      } else {
        NoFeeds(f);
      }
    }
  }

  /**
   The assembled lines are the complete lines of the joined text exactly when no fragment has a
   line feed before its end.
   */
  lemma AssembledExactly(fragments: seq<string>)
    ensures Assembled(fragments) == CompleteLines(Joined(fragments)) <==>
      forall f :: f in fragments ==> FeedOnlyAtEnd(f)
  {
    if forall f :: f in fragments ==> FeedOnlyAtEnd(f) {
      AssembledLines(fragments);
    } else {
      FeedsBound(fragments);
      OneLinePerFeed(Joined(fragments));
    }
  }

  /** Text after the last line feed emits nothing. */
  lemma UnterminatedTailIsSilent(r: Reader, fragments: seq<string>, tail: string)
    requires !EndsLine(tail)
    ensures Transcript(r, Assembled(fragments + [tail])) == Transcript(r, Assembled(fragments))
  {
    hide Transcript;
    assert (fragments + [tail])[..|fragments|] == fragments;
    assert Assembled(fragments + [tail]) == Assembled(fragments);
  }

  // ---- The parser ----

  /** The id map and the history of uses agree. */
  ghost predicate Represents(names: map<string, string>, history: seq<Use>) {
    && "" !in names
    && forall id :: id != "" ==> Latest(history, id) == if id in names then Some(names[id]) else None
  }

  lemma RepresentsOneMore(names: map<string, string>, history: seq<Use>, use: Use)
    requires Represents(names, history) && use.id != ""
    ensures Represents(names[use.id := use.name], history + [use])
  {
    assert (history + [use])[..|history|] == history;
  }

  datatype Emit = Emit(chunk: Chunk, fd: Fd)

  function On(fd: Fd, emitted: seq<Emit>): seq<Chunk> {
    if emitted == [] then []
    else
      var last := emitted[|emitted| - 1];
      On(fd, emitted[..|emitted| - 1]) + (if last.fd == fd then [last.chunk] else [])
  }

  lemma OnOneMore(fd: Fd, emitted: seq<Emit>, e: Emit)
    ensures On(fd, emitted + [e]) == On(fd, emitted) + (if e.fd == fd then [e.chunk] else [])
  {
    assert (emitted + [e])[..|emitted|] == emitted;
  }

  /** What is forwarded of the error stream: every line that is not blank, as it is. */
  function ErrorChunks(r: Reader, lines: seq<string>): seq<Chunk> {
    if lines == [] then []
    else
      var n := |lines| - 1;
      ErrorChunks(r, lines[..n]) + (if r.blank(lines[n]) then [] else [Chunk("stderr", lines[n])])
  }

  lemma PartsOneMore(history: seq<Use>, user: bool, parts: seq<Part>, k: nat)
    requires k < |parts|
    ensures PartsChunks(history, user, parts[..k + 1])
         == PartsChunks(history, user, parts[..k])
            + (if user then UserChunks(history, parts[k]) else AssistantChunks(parts[k]))
    ensures PartsUses(parts[..k + 1])
         == PartsUses(parts[..k])
            + (if parts[k].ToolUse? && parts[k].id != "" then [Use(parts[k].id, NameOf(parts[k].name))] else [])
  {
    assert parts[..k + 1][..k] == parts[..k];
  }

  class Parser {
    const reader: Reader
    var stdoutBuf: seq<string>
    var toolNames: map<string, string>
    var emitted: seq<Emit>
    ghost var fragments: seq<string>
    ghost var errors: seq<string>

    constructor (reader: Reader)
      ensures this.reader == reader && Valid() && fragments == [] && errors == []
    {
      this.reader := reader;
      stdoutBuf, toolNames, emitted, fragments, errors := [], map[], [], [], [];
    }

    /** Everything emitted so far is the transcript of the lines assembled so far, and the error lines. */
    ghost predicate Valid()
      reads this
    {
      && Joined(stdoutBuf) == Waiting(fragments)
      && Represents(toolNames, Uses(reader, Assembled(fragments)))
      && On(Stdout, emitted) == Transcript(reader, Assembled(fragments))
      && On(Stderr, emitted) == ErrorChunks(reader, errors)
    }

    method EmitChunk(chunk: Chunk, fd: Fd)
      modifies this`emitted
      ensures emitted == old(emitted) + [Emit(chunk, fd)]
      ensures forall f :: On(f, emitted) == old(On(f, emitted)) + (if f == fd then [chunk] else [])
    {
      OnOneMore(Stdout, emitted, Emit(chunk, fd));
      OnOneMore(Stderr, emitted, Emit(chunk, fd));
      emitted := emitted + [Emit(chunk, fd)];
    }

    /** The branches over the kinds of parts of an assistant message. */
    static method ShowPart(part: Part) returns (out: seq<Chunk>)
      ensures out == AssistantChunks(part)
    {
      out := [];
      match part
      case Text(text) =>
        if text != "" {
          out := [Chunk("text", if text[|text| - 1] == '\n' then text else text + "\n")];
        }
      case Thinking(text) =>
        if text != "" {
          out := [Chunk("reasoning", "· thinking: " + text + "\n")];
        }
      case ToolUse(_, partName, input, file) =>
        var name := if partName == "" then "?" else partName;
        out := [Chunk("tool_use", "→ Tool(" + name + ") " + input + "\n")];
        if name in EDIT_LIKE_TOOLS && file != "" {
          out := out + [Chunk("tool_use", "  file: " + file + "\n")];
        }
      case _ =>
    }

    method ParseAssistant(parts: seq<Part>, ghost history: seq<Use>) returns (out: seq<Chunk>)
      requires Represents(toolNames, history)
      modifies this`toolNames
      ensures out == PartsChunks(history, false, parts)
      ensures Represents(toolNames, history + PartsUses(parts))
    {
      hide Represents, AssistantChunks;
      out := [];
      assert parts[..0] == [] && history + [] == history;
      for k := 0 to |parts|
        invariant out == PartsChunks(history, false, parts[..k])
        invariant Represents(toolNames, history + PartsUses(parts[..k]))
      {
        var part := parts[k];
        PartsOneMore(history, false, parts, k);
        assert PartsUses(parts[..k]) + [] == PartsUses(parts[..k]);
        if part.ToolUse? {
          var name := if part.name == "" then "?" else part.name;
          if part.id != "" {
            RepresentsOneMore(toolNames, history + PartsUses(parts[..k]), Use(part.id, name));
            assert history + PartsUses(parts[..k]) + [Use(part.id, name)] == history + PartsUses(parts[..k + 1]);
            toolNames := toolNames[part.id := name];
          }
        }
        var shown := ShowPart(part);
        out := out + shown;
      }
      assert parts[..|parts|] == parts;
    }

    method ParseUser(parts: seq<Part>, ghost history: seq<Use>) returns (out: seq<Chunk>)
      requires Represents(toolNames, history)
      ensures out == PartsChunks(history, true, parts)
    {
      out := [];
      assert parts[..0] == [];
      for k := 0 to |parts|
        invariant out == PartsChunks(history, true, parts[..k])
      {
        PartsOneMore(history, true, parts, k);
        var part := parts[k];
        if part.ToolResult? {
          var toolName := if part.useId == "" then "tool" else part.useId;
          if part.useId != "" && part.useId in toolNames {
            toolName := toolNames[part.useId];
          }
          var prefix := if part.isError then "✗" else "←";
          out := out + [Chunk("tool_result", prefix + " " + toolName + ": " + part.rendered + "\n")];
        }
      }
      assert parts[..|parts|] == parts;
    }

    method EmitParsed(rawLine: string, ghost history: seq<Use>)
      requires Represents(toolNames, history)
      modifies this`emitted, this`toolNames
      ensures On(Stdout, emitted) == old(On(Stdout, emitted)) + LineChunks(reader, history, rawLine)
      ensures On(Stderr, emitted) == old(On(Stderr, emitted))
      ensures Represents(toolNames, history + LineUses(reader, rawLine))
    {
      hide Represents, On, PartsChunks, PartsUses, Bare;
      var line := Bare(rawLine);
      assert history + [] == history;
      if reader.blank(line) {
        return;
      }
      match reader.decode(line)
      case NotJson => EmitChunk(Chunk("stdout", rawLine), Stdout);
      case NotObject => EmitChunk(Chunk("stdout", rawLine), Stdout);
      case Object(event) =>
        var chunks;
        match event {
          case Assistant(parts) => chunks := ParseAssistant(parts, history);
          case User(parts) => chunks := ParseUser(parts, history);
          case Other(own) => chunks := own;
        }
        assert chunks == EventChunks(history, event);
        ghost var names := toolNames;
        for k := 0 to |chunks|
          invariant On(Stdout, emitted) == old(On(Stdout, emitted)) + chunks[..k]
          invariant On(Stderr, emitted) == old(On(Stderr, emitted)) && toolNames == names
        {
          EmitChunk(chunks[k], Stdout);
        }
    }

    /** The callback: fragments of the output stream are buffered until one ends a line. */
    method OnChunk(line: string, fd: Fd)
      requires Valid()
      modifies this
      ensures Valid()
      ensures fragments == (if fd == Stdout then old(fragments) + [line] else old(fragments))
      ensures errors == (if fd == Stderr then old(errors) + [line] else old(errors))
    {
      hide Represents, Transcript, Uses, On, Joined, Waiting, Assembled, ErrorChunks;
      if fd == Stderr {
        ErrorsOneMore(reader, errors, line);
        errors := errors + [line];
        if !reader.blank(line) {
          EmitChunk(Chunk("stderr", line), Stderr);
        }
        return;
      }
      FragmentsOneMore(reader, fragments, line);
      JoinedOneMore(stdoutBuf, line);
      ghost var lines := Assembled(fragments);
      fragments := fragments + [line];
      if !EndsLine(line) {
        stdoutBuf := stdoutBuf + [line];
        return;
      }
      var whole := line;
      if stdoutBuf != [] {
        whole := Joined(stdoutBuf + [line]);
      }
      stdoutBuf := [];
      EmitParsed(whole, Uses(reader, lines));
    }
  }

  lemma JoinedOneMore(fragments: seq<string>, line: string)
    ensures Joined(fragments + [line]) == Joined(fragments) + line
    ensures Joined([]) == "" && "" + line == line
  {
    assert (fragments + [line])[..|fragments|] == fragments;
  }

  lemma ErrorsOneMore(r: Reader, errors: seq<string>, line: string)
    ensures ErrorChunks(r, errors + [line])
         == ErrorChunks(r, errors) + (if r.blank(line) then [] else [Chunk("stderr", line)])
  {
    assert (errors + [line])[..|errors|] == errors;
  }

  lemma FragmentsOneMore(r: Reader, fragments: seq<string>, line: string)
    ensures
      var lines, whole := Assembled(fragments), Waiting(fragments) + line;
      if EndsLine(line) then
        && Assembled(fragments + [line]) == lines + [whole] && Waiting(fragments + [line]) == ""
        && Transcript(r, lines + [whole]) == Transcript(r, lines) + LineChunks(r, Uses(r, lines), whole)
        && Uses(r, lines + [whole]) == Uses(r, lines) + LineUses(r, whole)
      else
        Assembled(fragments + [line]) == lines && Waiting(fragments + [line]) == whole
  {
    hide LineChunks, LineUses;
    assert (fragments + [line])[..|fragments|] == fragments;
    var lines, whole := Assembled(fragments), Waiting(fragments) + line;
    assert (lines + [whole])[..|lines|] == lines;
  }

  /**
   For every way of cutting the output into fragments that may end in, but not contain, line feeds,
   what the parser emits depends on the joined text only: it is the transcript of its complete lines.
   */
  lemma FragmentationIsInvisible(r: Reader, fragments: seq<string>)
    requires forall f :: f in fragments ==> FeedOnlyAtEnd(f)
    ensures Transcript(r, Assembled(fragments)) == Transcript(r, CompleteLines(Joined(fragments)))
  {
    AssembledExactly(fragments);
  }

  /** A label names the last tool announced under the id, wherever it was announced before. */
  lemma {:induction false} LatestIsLast(history: seq<Use>, id: string)
    ensures Latest(history, id) == None <==> forall k :: 0 <= k < |history| ==> history[k].id != id
    ensures Latest(history, id).Some? ==>
      exists k :: 0 <= k < |history| && history[k] == Use(id, Latest(history, id).value)
        && forall j :: k < j < |history| ==> history[j].id != id
  {
    if history != [] {
      var n := |history| - 1;
      LatestIsLast(history[..n], id);
      if history[n].id == id {
        assert history[n] == Use(id, Latest(history, id).value);
      } else if Latest(history, id).Some? {
        var k :| 0 <= k < n && history[..n][k] == Use(id, Latest(history, id).value)
          && forall j :: k < j < n ==> history[..n][j].id != id;
        forall j | k < j < |history| ensures history[j].id != id {
          if j < n { assert history[..n][j].id != id; }
        }
        assert history[k] == Use(id, Latest(history, id).value);
      }
    }
  }
}
