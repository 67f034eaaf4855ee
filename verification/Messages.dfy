/** Messages, their token estimate, and the collapsing of tool details. */
module Messages {
  import opened Collections

  datatype Role = System | User | Assistant | ToolOutput

  datatype Part =
    | Text(text: string)
    | Thinking(text: string)
    | ToolCall(id: string, name: string, arguments: string)
    | ToolResult(toolCallId: string, content: string, isError: bool)
    | Image

  datatype Message = Message(id: string, role: Role, content: seq<Part>, timestamp: int)

  const IMAGE_CHARS := 4000

  function PartChars(p: Part): nat {
    match p
    case Text(t) => |t|
    case Thinking(t) => |t|
    case ToolCall(_, name, arguments) => |name| + |arguments|
    case ToolResult(_, content, _) => |content|
    case Image => IMAGE_CHARS
  }

  function Chars(parts: seq<Part>): nat {
    if parts == [] then 0 else Chars(parts[..|parts| - 1]) + PartChars(parts[|parts| - 1])
  }

  /** What one more part adds to the count. */
  lemma CharsGrow(parts: seq<Part>, p: Part)
    ensures Chars([]) == 0
    ensures Chars(parts + [p]) - Chars(parts) == match p
      case Text(t) => |t|
      case Thinking(t) => |t|
      case ToolCall(_, name, arguments) => |name| + |arguments|
      case ToolResult(_, content, _) => |content|
      case Image => 4000
  {
    assert (parts + [p])[..|parts|] == parts;
  }

  /** Characters over 3.7 characters per token, rounded up. */
  function Tokens(parts: seq<Part>): nat { (10 * Chars(parts) + 36) / 37 }

  lemma TokensIsCeiling(parts: seq<Part>)
    ensures Tokens(parts) as real >= Chars(parts) as real / 3.7
    ensures Tokens(parts) as real < Chars(parts) as real / 3.7 + 1.0
  {
    var c, t := Chars(parts), Tokens(parts);
    assert 37 * t <= 10 * c + 36 < 37 * t + 37;
    assert 37.0 * t as real >= 10.0 * c as real;
    assert 37.0 * t as real <= 10.0 * c as real + 36.0;
  }

  method EstimatePartTokens(parts: seq<Part>) returns (tokens: nat)
    ensures tokens == Tokens(parts)
  {
    var chars := 0;
    for i := 0 to |parts|
      invariant chars == Chars(parts[..i])
    {
      assert parts[..i + 1][..i] == parts[..i];
      match parts[i] {
        case Text(t) => chars := chars + |t|;
        case Thinking(t) => chars := chars + |t|;
        case ToolCall(_, name, arguments) => chars := chars + |name| + |arguments|;
        case ToolResult(_, content, _) => chars := chars + |content|;
        case Image => chars := chars + IMAGE_CHARS;
      }
    }
    assert parts[..|parts|] == parts;
    tokens := (10 * chars + 36) / 37;
  }

  function PartText(p: Part): string {
    match p
    case Text(t) => t
    case Thinking(t) => "[thinking] " + t
    case ToolCall(_, name, _) => "[called tool: " + name + "]"
    case ToolResult(_, content, _) => "[tool result: " + content[..Min(200, |content|)] + "]"
    case Image => ""
  }

  /** The texts of the parts that have one, joined by line breaks. */
  function ExtractText(parts: seq<Part>): string { JoinLines(Texts(parts)) }

  function Texts(parts: seq<Part>): seq<string> {
    if parts == [] then [] else (if parts[0].Image? then [] else [PartText(parts[0])]) + Texts(parts[1..])
  }

  function JoinLines(lines: seq<string>): string {
    if lines == [] then ""
    else if |lines| == 1 then lines[0]
    else lines[0] + "\n" + JoinLines(lines[1..])
  }

  predicate HasText(parts: seq<Part>) { exists i :: 0 <= i < |parts| && !parts[i].Image? }

  lemma {:induction false} TextsAppend(parts: seq<Part>, more: seq<Part>)
    ensures Texts(parts + more) == Texts(parts) + Texts(more)
  {
    if parts == [] {
      assert parts + more == more;
    } else {
      assert (parts + more)[1..] == parts[1..] + more;
      TextsAppend(parts[1..], more);
    }
  }

  lemma {:induction false} JoinLast(lines: seq<string>, last: string)
    ensures JoinLines(lines + [last]) == if lines == [] then last else JoinLines(lines) + "\n" + last
  {
    if lines != [] {
      assert (lines + [last])[1..] == lines[1..] + [last];
      JoinLast(lines[1..], last);
      if |lines| > 1 {
        var rest := JoinLines(lines[1..]);
        assert lines[0] + "\n" + (rest + "\n" + last) == lines[0] + "\n" + rest + "\n" + last;
      }
    }
  }

  lemma {:induction false} NoTextsIff(parts: seq<Part>)
    ensures Texts(parts) == [] <==> !HasText(parts)
  {
    if parts != [] {
      NoTextsIff(parts[1..]);
      if i :| 0 <= i < |parts| && !parts[i].Image? {
        if i > 0 { assert !parts[1..][i - 1].Image?; }
      }
      if HasText(parts[1..]) {
        var i :| 0 <= i < |parts[1..]| && !parts[1..][i].Image?;
        assert !parts[i + 1].Image?;
      }
    }
  }

  /** What one more part adds to the text: its own line, after those of the parts before it. */
  lemma ExtractedGrows(parts: seq<Part>, p: Part)
    ensures ExtractText([]) == ""
    ensures p.Image? ==> ExtractText(parts + [p]) == ExtractText(parts)
    ensures !p.Image? ==>
      exists line ::
        && IsLine(line, p)
        && ExtractText(parts + [p]) == if HasText(parts) then ExtractText(parts) + "\n" + line else line
  {
    TextsAppend(parts, [p]);
    assert [p][1..] == [];
    if p.Image? {
      assert Texts(parts) + [] == Texts(parts);
    } else {
      assert Texts([p]) == [PartText(p)];
      JoinLast(Texts(parts), PartText(p));
      NoTextsIff(parts);
      assert IsLine(PartText(p), p);
    }
  }

  /** The line of a part: its text, marked by its kind, and of a result the first 200 characters. */
  predicate IsLine(line: string, p: Part) {
    match p
    case Text(t) => line == t
    case Thinking(t) => line == "[thinking] " + t
    case ToolCall(_, name, _) => line == "[called tool: " + name + "]"
    case ToolResult(_, content, _) =>
      line == "[tool result: " + (if |content| <= 200 then content else content[..200]) + "]"
    case Image => false
  }

  // ---- Collapsing tool details ------------------------------------------------------

  function CollapsePart(p: Part): Part {
    match p
    case ToolCall(id, name, _) => ToolCall(id, name, "{}")
    case ToolResult(id, content, isError) =>
      ToolResult(id, if |content| > 100 then content[..100] + "..." else content, isError)
    case _ => p
  }

  function CollapseParts(parts: seq<Part>): (r: seq<Part>)
    ensures |r| == |parts|
    ensures forall i :: 0 <= i < |parts| ==> r[i] == CollapsePart(parts[i])
  {
    seq(|parts|, i requires 0 <= i < |parts| => CollapsePart(parts[i]))
  }

  function CollapseMessage(m: Message): Message { m.(content := CollapseParts(m.content)) }

  function Collapse(messages: seq<Message>): (r: seq<Message>)
    ensures |r| == |messages|
    ensures forall i :: 0 <= i < |messages| ==> r[i] == CollapseMessage(messages[i])
  {
    seq(|messages|, i requires 0 <= i < |messages| => CollapseMessage(messages[i]))
  }

  /** A collapsed part: calls lose their arguments, long results all but 100 characters, and nothing else changes. */
  predicate IsCollapsed(was: Part, now: Part) {
    match was
    case ToolCall(id, name, _) => now == ToolCall(id, name, "{}")
    case ToolResult(id, content, isError) =>
      && now.ToolResult? && now.toolCallId == id && now.isError == isError
      && (|content| <= 100 ==> now.content == content)
      && (|content| > 100 ==> now.content == content[..100] + "...")
    case _ => now == was
  }

  lemma CollapseIs(m: Message)
    ensures var r := CollapseMessage(m);
      && r.id == m.id && r.role == m.role && r.timestamp == m.timestamp && |r.content| == |m.content|
      && forall i :: 0 <= i < |m.content| ==> IsCollapsed(m.content[i], r.content[i])
  {
  }

  /** A part grows exactly for arguments shorter than two and results of 101 or 102 characters. */
  lemma CollapsePartGrowsIff(p: Part)
    ensures PartChars(CollapsePart(p)) > PartChars(p) <==>
      ((p.ToolCall? && |p.arguments| < 2) || (p.ToolResult? && 100 < |p.content| < 103))
  {
  }

  /** Collapsing never costs tokens when no part falls in those two cases. */
  lemma CollapseShrinks(parts: seq<Part>)
    requires forall p :: p in parts ==> PartChars(CollapsePart(p)) <= PartChars(p)
    ensures Tokens(CollapseParts(parts)) <= Tokens(parts)
  {
    CollapseShrinksChars(parts);
  }

  lemma {:induction false} CollapseShrinksChars(parts: seq<Part>)
    requires forall p :: p in parts ==> PartChars(CollapsePart(p)) <= PartChars(p)
    ensures Chars(CollapseParts(parts)) <= Chars(parts)
  {
    if parts != [] {
      var front := parts[..|parts| - 1];
      CollapseShrinksChars(front);
      assert CollapseParts(parts)[..|parts| - 1] == CollapseParts(front);
      assert parts[|parts| - 1] in parts;
    }
  }
}
