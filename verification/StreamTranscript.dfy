/**
 What the transcript says: which chunk each part of a decoded line becomes, and by which name a tool
 result is announced. The statements are about positions in the emitted transcript and spell the
 texts out.
 */
module StreamTranscript {
  import opened Wrappers
  import opened StreamParser

  // ---- Lines ----

  function Repeat(c: char, n: nat): string {
    if n == 0 then "" else Repeat(c, n - 1) + [c]
  }

  /** Only the line feeds at the end are cut off, and then only the carriage returns before them. */
  lemma BareIsTheText(text: string, breaks: nat, feeds: nat)
    requires text == "" || text[|text| - 1] !in {'\n', '\r'}
    ensures Bare(text + Repeat('\r', breaks) + Repeat('\n', feeds)) == text
  {
    var line := text + Repeat('\r', breaks);
    CutRepeated(text, '\r', breaks);
    RepeatedEnd('\r', breaks);
    if line != "" && breaks > 0 {
      assert line[|line| - 1] == '\r';
    }
    assert breaks == 0 ==> line == text;
    CutRepeated(line, '\n', feeds);
  }

  lemma {:induction false} RepeatedEnd(c: char, n: nat)
    ensures n > 0 ==> Repeat(c, n) != "" && Repeat(c, n)[|Repeat(c, n)| - 1] == c
  {
  }

  lemma {:induction false} CutRepeated(text: string, c: char, n: nat)
    requires text == "" || text[|text| - 1] != c
    ensures Without(text + Repeat(c, n), c) == text
  {
    hide Without;
    if n == 0 {
      assert text + Repeat(c, 0) == text;
      NothingToCut(text, c);
    } else {
      CutRepeated(text, c, n - 1);
      assert text + Repeat(c, n) == (text + Repeat(c, n - 1)) + [c];
      CutOne(text + Repeat(c, n - 1), c);
    }
  }

  lemma NothingToCut(text: string, c: char)
    requires text == "" || text[|text| - 1] != c
    ensures Without(text, c) == text
  {
  }

  lemma CutOne(text: string, c: char)
    ensures Without(text + [c], c) == Without(text, c)
  {
    assert (text + [c])[..|text|] == text;
  }

  /** The event on a line, if it is a JSON object. */
  function EventOn(r: Reader, line: string): Option<Event> {
    if r.blank(Bare(line)) then None
    else match r.decode(Bare(line))
      case Object(event) => Some(event)
      case _ => None
  }

  /** The chunks of a line stand in the transcript behind those of the lines before. */
  lemma {:induction false} LineFits(r: Reader, lines: seq<string>, j: nat)
    requires j < |lines|
    ensures
      var before, chunks := |Transcript(r, lines[..j])|, LineChunks(r, Uses(r, lines[..j]), lines[j]);
      before + |chunks| <= |Transcript(r, lines)| && Transcript(r, lines)[before..before + |chunks|] == chunks
    decreases |lines|
  {
    hide LineChunks, Uses, Transcript;
    var n := |lines| - 1;
    var last := LineChunks(r, Uses(r, lines[..n]), lines[n]);
    LastLineAdds(r, lines);
    if j < n {
      assert lines[..n][..j] == lines[..j];
      LineFits(r, lines[..n], j);
      var before, chunks := |Transcript(r, lines[..j])|, LineChunks(r, Uses(r, lines[..j]), lines[j]);
      SumSlices(Transcript(r, lines[..n]), last, before, before + |chunks|);
    } else {
      SumSlices(Transcript(r, lines[..n]), last, 0, 0);
    }
  }

  lemma LastLineAdds(r: Reader, lines: seq<string>)
    requires lines != []
    ensures
      var n := |lines| - 1;
      Transcript(r, lines) == Transcript(r, lines[..n]) + LineChunks(r, Uses(r, lines[..n]), lines[n])
  {
    hide LineChunks, Uses;
  }

  lemma SumSlices(a: seq<Chunk>, b: seq<Chunk>, i: nat, j: nat)
    requires i <= j <= |a|
    ensures (a + b)[i..j] == a[i..j] && (a + b)[|a|..|a| + |b|] == b
  {
  }

  // ---- Tool results ----

  function Results(parts: seq<Part>): nat {
    if parts == [] then 0
    else Results(parts[..|parts| - 1]) + (if parts[|parts| - 1].ToolResult? then 1 else 0)
  }

  lemma {:induction false} ResultChunk(history: seq<Use>, parts: seq<Part>, k: nat)
    requires k < |parts| && parts[k].ToolResult?
    ensures |PartsChunks(history, true, parts)| == Results(parts)
    ensures Results(parts[..k]) < |PartsChunks(history, true, parts)|
    ensures PartsChunks(history, true, parts)[Results(parts[..k])] == UserChunks(history, parts[k])[0]
    decreases |parts|
  {
    hide Label;
    var n := |parts| - 1;
    ResultCount(history, parts[..n]);
    if k < n {
      assert parts[..n][..k] == parts[..k];
      ResultChunk(history, parts[..n], k);
    }
  }

  lemma {:induction false} ResultCount(history: seq<Use>, parts: seq<Part>)
    ensures |PartsChunks(history, true, parts)| == Results(parts)
  {
    hide Label;
    if parts != [] {
      ResultCount(history, parts[..|parts| - 1]);
    }
  }

  /** A line that announces a tool use under the id. */
  predicate Announces(r: Reader, line: string, id: string) {
    var event := EventOn(r, line);
    event.Some? && event.value.Assistant?
    && exists m :: 0 <= m < |event.value.parts| && event.value.parts[m].ToolUse? && event.value.parts[m].id == id
  }

  /** The line's last use of the id is its part `m`, under this name. */
  predicate AnnouncesLast(r: Reader, line: string, m: nat, id: string, name: string) {
    var event := EventOn(r, line);
    event.Some? && event.value.Assistant?
    && var parts := event.value.parts;
       && m < |parts| && parts[m].ToolUse? && parts[m].id == id && parts[m].name == name
       && forall l :: m < l < |parts| ==> !(parts[l].ToolUse? && parts[l].id == id)
  }

  lemma {:induction false} LatestAppend(a: seq<Use>, b: seq<Use>, id: string)
    ensures Latest(a + b, id) == if Latest(b, id).Some? then Latest(b, id) else Latest(a, id)
  {
    if b == [] {
      assert a + b == a;
    } else {
      assert (a + b)[..|a + b| - 1] == a + b[..|b| - 1];
      LatestAppend(a, b[..|b| - 1], id);
    }
  }

  lemma {:induction false} NoPartUses(parts: seq<Part>, id: string)
    requires forall m :: 0 <= m < |parts| ==> !(parts[m].ToolUse? && parts[m].id == id)
    ensures Latest(PartsUses(parts), id) == None
  {
    if parts != [] {
      var n := |parts| - 1;
      NoPartUses(parts[..n], id);
      LatestAppend(PartsUses(parts[..n]), PartsUses(parts)[|PartsUses(parts[..n])|..], id);
      assert PartsUses(parts) == PartsUses(parts[..n]) + PartsUses(parts)[|PartsUses(parts[..n])|..];
    }
  }

  lemma {:induction false} LastPartUse(parts: seq<Part>, m: nat, id: string)
    requires id != "" && m < |parts| && parts[m].ToolUse? && parts[m].id == id
    requires forall l :: m < l < |parts| ==> !(parts[l].ToolUse? && parts[l].id == id)
    ensures Latest(PartsUses(parts), id) == Some(if parts[m].name == "" then "?" else parts[m].name)
  {
    var n := |parts| - 1;
    var last := parts[n];
    var more := if last.ToolUse? && last.id != "" then [Use(last.id, NameOf(last.name))] else [];
    LatestAppend(PartsUses(parts[..n]), more, id);
    if m < n {
      LastPartUse(parts[..n], m, id);
      assert !(parts[n].ToolUse? && parts[n].id == id);
    }
  }

  lemma {:induction false} NeverUsed(r: Reader, lines: seq<string>, id: string)
    requires forall i :: 0 <= i < |lines| ==> !Announces(r, lines[i], id)
    ensures Latest(Uses(r, lines), id) == None
  {
    hide Announces, LineUses;
    if lines != [] {
      var n := |lines| - 1;
      NeverUsed(r, lines[..n], id);
      LatestAppend(Uses(r, lines[..n]), LineUses(r, lines[n]), id);
      LineWithoutUse(r, lines[n], id);
    }
  }

  lemma LineWithoutUse(r: Reader, line: string, id: string)
    requires !Announces(r, line, id)
    ensures Latest(LineUses(r, line), id) == None
  {
    hide Bare;
    if EventOn(r, line).Some? && EventOn(r, line).value.Assistant? {
      NoPartUses(EventOn(r, line).value.parts, id);
    }
  }

  lemma LineWithUse(r: Reader, line: string, m: nat, id: string, name: string)
    requires id != "" && AnnouncesLast(r, line, m, id, name)
    ensures Latest(LineUses(r, line), id) == Some(if name == "" then "?" else name)
  {
    hide Bare;
    LastPartUse(EventOn(r, line).value.parts, m, id);
  }

  lemma {:induction false} LastUsed(r: Reader, lines: seq<string>, i: nat, m: nat, id: string, name: string)
    requires id != "" && i < |lines| && AnnouncesLast(r, lines[i], m, id, name)
    requires forall l :: i < l < |lines| ==> !Announces(r, lines[l], id)
    ensures Latest(Uses(r, lines), id) == Some(if name == "" then "?" else name)
  {
    hide Announces, AnnouncesLast, LineUses;
    var n := |lines| - 1;
    LatestAppend(Uses(r, lines[..n]), LineUses(r, lines[n]), id);
    if i < n {
      assert lines[..n][i] == lines[i];
      LastUsed(r, lines[..n], i, m, id, name);
      assert !Announces(r, lines[n], id);
      LineWithoutUse(r, lines[n], id);
    } else {
      LineWithUse(r, lines[n], m, id, name);
    }
  }

  /** Part `k` of line `j` is this result. */
  predicate HasResult(r: Reader, lines: seq<string>, j: nat, k: nat, id: string, isError: bool, rendered: string) {
    j < |lines|
    && var event := EventOn(r, lines[j]);
       event.Some? && event.value.User?
       && k < |event.value.parts| && event.value.parts[k] == ToolResult(id, isError, rendered)
  }

  /** Where the chunk of part `k` of a user event on line `j` stands in the transcript. */
  function ResultPlace(r: Reader, lines: seq<string>, j: nat, k: nat): nat
    requires j < |lines| && EventOn(r, lines[j]).Some? && EventOn(r, lines[j]).value.User?
    requires k <= |EventOn(r, lines[j]).value.parts|
  {
    |Transcript(r, lines[..j])| + Results(EventOn(r, lines[j]).value.parts[..k])
  }

  function ResultText(isError: bool, name: string, rendered: string): Chunk {
    Chunk("tool_result", (if isError then "✗" else "←") + " " + name + ": " + rendered + "\n")
  }

  lemma ResultInTranscript(r: Reader, lines: seq<string>, j: nat, k: nat, id: string, isError: bool, rendered: string)
    requires HasResult(r, lines, j, k, id, isError, rendered)
    ensures ResultPlace(r, lines, j, k) < |Transcript(r, lines)|
    ensures Transcript(r, lines)[ResultPlace(r, lines, j, k)]
         == ResultText(isError, Label(Uses(r, lines[..j]), id), rendered)
  {
    hide Bare, Transcript, Uses, Label;
    var parts := EventOn(r, lines[j]).value.parts;
    ResultChunk(Uses(r, lines[..j]), parts, k);
    LineFits(r, lines, j);
    var before, chunks := |Transcript(r, lines[..j])|, LineChunks(r, Uses(r, lines[..j]), lines[j]);
    assert Transcript(r, lines)[before..before + |chunks|][Results(parts[..k])] == chunks[Results(parts[..k])];
  }

  /**
   A result is announced by the name the tool was last used under before: the use on line `i` names
   it when no line in between uses the id again.
   */
  lemma ResultIsNamed(r: Reader, lines: seq<string>, i: nat, m: nat, name: string,
                      j: nat, k: nat, id: string, isError: bool, rendered: string)
    requires HasResult(r, lines, j, k, id, isError, rendered) && id != ""
    requires i < j && AnnouncesLast(r, lines[i], m, id, name)
    requires forall l :: i < l < j ==> !Announces(r, lines[l], id)
    ensures ResultPlace(r, lines, j, k) < |Transcript(r, lines)|
    ensures Transcript(r, lines)[ResultPlace(r, lines, j, k)]
         == ResultText(isError, if name == "" then "?" else name, rendered)
  {
    hide EventOn, Transcript, Uses, Announces, AnnouncesLast, ResultPlace;
    ResultInTranscript(r, lines, j, k, id, isError, rendered);
    assert lines[..j][i] == lines[i];
    LastUsed(r, lines[..j], i, m, id, name);
  }

  /** A result whose id was not used before is announced by the id, and one without an id as `tool`. */
  lemma UnknownResultIsItsId(r: Reader, lines: seq<string>, j: nat, k: nat, id: string, isError: bool, rendered: string)
    requires HasResult(r, lines, j, k, id, isError, rendered)
    requires id == "" || forall l :: 0 <= l < j ==> !Announces(r, lines[l], id)
    ensures ResultPlace(r, lines, j, k) < |Transcript(r, lines)|
    ensures Transcript(r, lines)[ResultPlace(r, lines, j, k)]
         == ResultText(isError, if id == "" then "tool" else id, rendered)
  {
    hide EventOn, Transcript, Uses, Announces, ResultPlace;
    ResultInTranscript(r, lines, j, k, id, isError, rendered);
    if id != "" {
      NeverUsed(r, lines[..j], id);
    }
  }

  // ---- Assistant messages and other lines ----

  /** How many chunks a part of an assistant message becomes. */
  function Width(part: Part): nat {
    match part
    case Text(text) => if text == "" then 0 else 1
    case Thinking(text) => if text == "" then 0 else 1
    case ToolUse(_, name, _, file) => if name in {"Edit", "Write", "NotebookEdit", "MultiEdit"} && file != "" then 2 else 1
    case _ => 0
  }

  function Widths(parts: seq<Part>): nat {
    if parts == [] then 0 else Widths(parts[..|parts| - 1]) + Width(parts[|parts| - 1])
  }

  /** The part reads like this at position `at`. */
  predicate Reads(chunks: seq<Chunk>, at: nat, part: Part) {
    at + Width(part) <= |chunks|
    && match part
       case Text(text) =>
         text != "" ==>
           chunks[at].kind == "text"
           && (chunks[at].text == text || chunks[at].text == text + "\n")
           && chunks[at].text[|chunks[at].text| - 1] == '\n'
           && (text[|text| - 1] == '\n' ==> chunks[at].text == text)
       case Thinking(text) => text != "" ==> chunks[at] == Chunk("reasoning", "· thinking: " + text + "\n")
       case ToolUse(_, name, input, file) =>
         && chunks[at] == Chunk("tool_use", "→ Tool(" + (if name == "" then "?" else name) + ") " + input + "\n")
         && (Width(part) == 2 ==> chunks[at + 1] == Chunk("tool_use", "  file: " + file + "\n"))
       case _ => true
  }

  lemma PartReads(part: Part)
    ensures |AssistantChunks(part)| == Width(part) && Reads(AssistantChunks(part), 0, part)
  {
    assert "?"[0] == '?' && "Edit"[0] == 'E' && "Write"[0] == 'W' && "NotebookEdit"[0] == 'N' && "MultiEdit"[0] == 'M';
  }

  /** The same chunks read the same elsewhere. */
  lemma ReadsElsewhere(a: seq<Chunk>, at: nat, b: seq<Chunk>, bt: nat, part: Part)
    requires Reads(a, at, part) && bt + Width(part) <= |b|
    requires a[at..at + Width(part)] == b[bt..bt + Width(part)]
    ensures Reads(b, bt, part)
  {
    if Width(part) > 0 {
      assert a[at] == a[at..at + Width(part)][0] && b[bt] == b[bt..bt + Width(part)][0];
    }
    if Width(part) > 1 {
      assert a[at + 1] == a[at..at + Width(part)][1] && b[bt + 1] == b[bt..bt + Width(part)][1];
    }
  }

  lemma {:induction false} PartsRead(history: seq<Use>, parts: seq<Part>, k: nat)
    requires k < |parts|
    ensures |PartsChunks(history, false, parts)| == Widths(parts)
    ensures Reads(PartsChunks(history, false, parts), Widths(parts[..k]), parts[k])
    decreases |parts|
  {
    hide AssistantChunks, Width, Reads;
    var n := |parts| - 1;
    var chunks, before := PartsChunks(history, false, parts), PartsChunks(history, false, parts[..n]);
    PartReads(parts[n]);
    AllWidths(history, parts[..n]);
    if k < n {
      assert parts[..n][..k] == parts[..k];
      PartsRead(history, parts[..n], k);
      WidthsGrow(parts[..n], k);
      ReadsElsewhere(before, Widths(parts[..k]), chunks, Widths(parts[..k]), parts[k]);
    } else {
      ReadsElsewhere(AssistantChunks(parts[n]), 0, chunks, Widths(parts[..n]), parts[n]);
    }
  }

  lemma {:induction false} AllWidths(history: seq<Use>, parts: seq<Part>)
    ensures |PartsChunks(history, false, parts)| == Widths(parts)
  {
    hide AssistantChunks, Width;
    if parts != [] {
      PartReads(parts[|parts| - 1]);
      AllWidths(history, parts[..|parts| - 1]);
    }
  }

  lemma {:induction false} WidthsGrow(parts: seq<Part>, k: nat)
    requires k < |parts|
    ensures Widths(parts[..k]) + Width(parts[k]) <= Widths(parts)
    decreases |parts|
  {
    var n := |parts| - 1;
    if k < n {
      assert parts[..n][..k] == parts[..k];
      WidthsGrow(parts[..n], k);
    }
  }

  lemma PartOfPart(all: seq<Chunk>, before: nat, chunks: seq<Chunk>, i: nat, j: nat)
    requires before + |chunks| <= |all| && all[before..before + |chunks|] == chunks && i <= j <= |chunks|
    ensures all[before + i..before + j] == chunks[i..j]
  {
    assert forall k :: 0 <= k < |chunks| ==> chunks[k] == all[before..before + |chunks|][k] == all[before + k];
  }

  /** Each part of an assistant message reads as it should, in order, at its place in the transcript. */
  lemma AssistantReads(r: Reader, lines: seq<string>, j: nat, k: nat)
    requires j < |lines| && EventOn(r, lines[j]).Some? && EventOn(r, lines[j]).value.Assistant?
    requires k < |EventOn(r, lines[j]).value.parts|
    ensures
      var parts := EventOn(r, lines[j]).value.parts;
      Reads(Transcript(r, lines), |Transcript(r, lines[..j])| + Widths(parts[..k]), parts[k])
  {
    hide Bare, Transcript, Uses, AssistantChunks, Reads, Width, Widths, PartsChunks;
    var parts := EventOn(r, lines[j]).value.parts;
    var history := Uses(r, lines[..j]);
    PartsRead(history, parts, k);
    WidthsGrow(parts, k);
    AllWidths(history, parts);
    LineFits(r, lines, j);
    var at, before := Widths(parts[..k]), |Transcript(r, lines[..j])|;
    var chunks := PartsChunks(history, false, parts);
    PartOfPart(Transcript(r, lines), before, chunks, at, at + Width(parts[k]));
    ReadsElsewhere(chunks, at, Transcript(r, lines), before + at, parts[k]);
  }

  /** A line that is no JSON object is shown as it is; blank lines are not shown. */
  lemma OtherLinesRead(r: Reader, lines: seq<string>, j: nat)
    requires j < |lines| && EventOn(r, lines[j]) == None
    ensures Transcript(r, lines[..j + 1]) ==
      Transcript(r, lines[..j]) + (if r.blank(Bare(lines[j])) then [] else [Chunk("stdout", lines[j])])
  {
    hide Bare;
    assert lines[..j + 1][..j] == lines[..j];
  }

  /** Of the error stream every line that is not blank is forwarded, as it is and in its place. */
  lemma {:induction false} ErrorLinesRead(r: Reader, before: seq<string>, line: string, after: seq<string>)
    ensures ErrorChunks(r, before + [line] + after) ==
      ErrorChunks(r, before) + (if r.blank(line) then [] else [Chunk("stderr", line)]) + ErrorChunks(r, after)
    decreases |after|
  {
    var lines := before + [line] + after;
    if after == [] {
      assert lines == before + [line] && lines[..|before|] == before;
    } else {
      var n := |after| - 1;
      assert lines[..|lines| - 1] == before + [line] + after[..n];
      ErrorLinesRead(r, before, line, after[..n]);
    }
  }
}
