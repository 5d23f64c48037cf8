/**
 The pure decisions of the chat page (app/page.tsx): how a message's parts
 become its display text and loading indicator, the friendly tool label, the
 submit guard, the status flags and label, the per-segment markdown
 decisions and the theme toggle. Rendering and browser state are not part of
 this model.
 */
module ChatPage {
  import opened Base
  import Text
  import Tools

  // ---------------------------------------------------------------------------
  // Message parts

  /**
   One part of a message as the page reads it: its `type`, the text of a text
   part, the state of a tool part and the tool's output once available.
   */
  datatype Part = Part(kind: Option<string>, text: Option<string>, state: Option<string>,
                       output: Option<Tools.ToolResult>)

  const ToolPrefix: string := "tool-"

  predicate IsToolPart(p: Part) {
    p.kind.Some? && Text.StartsWith(p.kind.value, ToolPrefix)
  }

  /** A tool part whose call is still running. */
  predicate IsPending(p: Part) {
    IsToolPart(p) && (p.state == Some("call") || p.state == Some("partial-call"))
  }

  /**
   What one part adds to the display text: the text of a text part, or for a
   finished tool call the tool's message, falling back to the output's JSON
   (`toJson`) when the message is empty. Anything else adds "".
   */
  function Contribution(p: Part, toJson: Tools.ToolResult -> string): (c: string)
    ensures c != "" && p.kind == Some("text") ==> p.text == Some(c)
    ensures c != "" && p.kind != Some("text") ==>
              IsToolPart(p) && p.state == Some("output-available") && p.output.Some?
    ensures IsPending(p) ==> c == ""
    ensures p.kind == Some("text") && Truthy(p.text) ==> c == p.text.value
    ensures IsToolPart(p) && p.state == Some("output-available") && p.output.Some? ==>
              c == if p.output.value.message != "" then p.output.value.message else toJson(p.output.value)
  {
    if p.kind == Some("text") && Truthy(p.text) then p.text.value
    else if IsToolPart(p) && p.state == Some("output-available") && p.output.Some? then
      if p.output.value.message != "" then p.output.value.message else toJson(p.output.value)
    else ""
  }

  /** A contribution as a list: empty when there is nothing to show. */
  function Kept(c: string): seq<string> {
    if c == "" then [] else [c]
  }

  /** The non-empty contributions, in part order (`map` followed by `filter(Boolean)`). */
  function Contributions(parts: seq<Part>, toJson: Tools.ToolResult -> string): (cs: seq<string>)
    ensures |cs| <= |parts|
    ensures forall i :: 0 <= i < |cs| ==> cs[i] != ""
  {
    if parts == [] then [] else Kept(Contribution(parts[0], toJson)) + Contributions(parts[1..], toJson)
  }

  /** No contribution is left exactly when every part contributes "". */
  lemma {:induction false} ContributionsEmpty(parts: seq<Part>, toJson: Tools.ToolResult -> string)
    ensures Contributions(parts, toJson) == [] <==>
            forall i :: 0 <= i < |parts| ==> Contribution(parts[i], toJson) == ""
  {
    if parts != [] {
      ContributionsEmpty(parts[1..], toJson);
      assert forall i :: 1 <= i < |parts| ==> parts[i] == parts[1..][i - 1];
    }
  }

  /** Contributions of consecutive runs of parts concatenate. */
  lemma {:induction false} ContributionsAppend(a: seq<Part>, b: seq<Part>, toJson: Tools.ToolResult -> string)
    ensures Contributions(a + b, toJson) == Contributions(a, toJson) + Contributions(b, toJson)
  {
    if a == [] {
      assert a + b == b;
    } else {
      var ab := a + b;
      assert ab[0] == a[0];
      assert ab[1..] == a[1..] + b;
      ContributionsAppend(a[1..], b, toJson);
    }
  }

  /** A single part contributes its text, if it has any. */
  lemma ContributionsSingle(p: Part, toJson: Tools.ToolResult -> string)
    ensures Contributions([p], toJson) == Kept(Contribution(p, toJson))
  {
    assert [p][1..] == [];
  }

  /** `messageText`: the contributions joined by a blank line. */
  function MessageText(parts: seq<Part>, toJson: Tools.ToolResult -> string): (r: string)
    ensures r == "" <==> forall i :: 0 <= i < |parts| ==> Contribution(parts[i], toJson) == ""
  {
    var cs := Contributions(parts, toJson);
    ContributionsEmpty(parts, toJson);
    Text.JoinEmptyIffNone(cs, "\n\n");
    Text.Join(cs, "\n\n")
  }

  /** The display text of a single part is that part's contribution. */
  lemma MessageTextSingle(p: Part, toJson: Tools.ToolResult -> string)
    ensures MessageText([p], toJson) == Contribution(p, toJson)
  {
    ContributionsSingle(p, toJson);
  }

  /**
   Appending parts that contribute appends their text after a blank line;
   appending parts that contribute nothing leaves the text unchanged.
   */
  lemma MessageTextAppend(a: seq<Part>, b: seq<Part>, toJson: Tools.ToolResult -> string)
    ensures MessageText(a + b, toJson) ==
            if MessageText(a, toJson) == "" then MessageText(b, toJson)
            else if MessageText(b, toJson) == "" then MessageText(a, toJson)
            else MessageText(a, toJson) + "\n\n" + MessageText(b, toJson)
  {
    var ca, cb := Contributions(a, toJson), Contributions(b, toJson);
    ContributionsAppend(a, b, toJson);
    Text.JoinAppend(ca, cb, "\n\n");
    Text.JoinEmptyIffNone(ca, "\n\n");
    Text.JoinEmptyIffNone(cb, "\n\n");
  }

  /** The index of the first pending tool part at or after `from`. */
  function PendingFrom(parts: seq<Part>, from: nat): (r: Option<nat>)
    requires from <= |parts|
    ensures r.None? <==> forall j :: from <= j < |parts| ==> !IsPending(parts[j])
    ensures r.Some? ==>
              from <= r.value < |parts| && IsPending(parts[r.value]) &&
              forall j :: from <= j < r.value ==> !IsPending(parts[j])
    decreases |parts| - from
  {
    if from == |parts| then None
    else if IsPending(parts[from]) then Some(from)
    else PendingFrom(parts, from + 1)
  }

  /** `pendingTool`: the first tool part in state "call" or "partial-call". */
  function PendingTool(parts: seq<Part>): (r: Option<Part>)
    ensures r.None? <==> forall j :: 0 <= j < |parts| ==> !IsPending(parts[j])
    ensures r.Some? ==>
              exists k :: 0 <= k < |parts| && parts[k] == r.value && IsPending(parts[k]) &&
                          forall j :: 0 <= j < k ==> !IsPending(parts[j])
  {
    match PendingFrom(parts, 0)
    case None => None
    case Some(k) => Some(parts[k])
  }

  /** `showToolLoading`: nothing to display yet, and a tool call is running. */
  function ShowToolLoading(parts: seq<Part>, toJson: Tools.ToolResult -> string): (r: bool)
    ensures r <==>
              (forall i :: 0 <= i < |parts| ==> Contribution(parts[i], toJson) == "") &&
              (exists k :: 0 <= k < |parts| && IsPending(parts[k]))
  {
    MessageText(parts, toJson) == "" && PendingTool(parts).Some?
  }

  // ---------------------------------------------------------------------------
  // Tool labels

  /** The seven chat tools. */
  datatype ToolName =
    | StockQuote | CryptoPrice | TopCryptos | ForexRate | MarketNews | FearGreedIndex | MarketOverview

  function ToolId(t: ToolName): string {
    match t
    case StockQuote => "getStockQuote"
    case CryptoPrice => "getCryptoPrice"
    case TopCryptos => "getTopCryptos"
    case ForexRate => "getForexRate"
    case MarketNews => "getMarketNews"
    case FearGreedIndex => "getFearGreedIndex"
    case MarketOverview => "getMarketOverview"
  }

  /** The friendly labels, kept as the source's (mis-decoded) characters. */
  const ToolLabels: map<string, string> := map[
    "getStockQuote" := "\U{F8FF}\U{FC}\U{EC}\U{E0} Fetching stock data",
    "getCryptoPrice" := "\U{F8FF}\U{FC}\U{2122}\U{F4} Getting crypto price",
    "getTopCryptos" := "\U{F8FF}\U{FC}\U{EC}\U{E4} Loading top cryptos",
    "getForexRate" := "\U{F8FF}\U{FC}\U{ED}\U{B1} Getting exchange rate",
    "getMarketNews" := "\U{F8FF}\U{FC}\U{EC}\U{221E} Fetching market news",
    "getFearGreedIndex" := "\U{F8FF}\U{FC}\U{F2}\U{B1} Checking market sentiment",
    "getMarketOverview" := "\U{F8FF}\U{FC}\U{E5}\U{E7} Loading market overview"
  ]

  const GenericToolLabel: string := "\U{F8FF}\U{FC}\U{EE}\U{E7} Processing..."

  /** `names[toolName] || "…Processing..."`: the label of a known name, the generic one otherwise. */
  function LabelFor(name: string): (r: string)
    ensures name in ToolLabels ==> r == ToolLabels[name]
    ensures name !in ToolLabels ==> r == GenericToolLabel
  {
    if name in ToolLabels && ToolLabels[name] != "" then ToolLabels[name] else GenericToolLabel
  }

  /**
   `getToolDisplayName`: the first "tool-" is removed and the rest looked up.
   A type that does not contain "tool-" is looked up as it is.
   */
  function ToolDisplayName(toolType: string): (r: string)
    ensures r == GenericToolLabel || r in ToolLabels.Values
    ensures Text.StartsWith(toolType, ToolPrefix) ==> r == LabelFor(toolType[|ToolPrefix|..])
    ensures (forall i :: !Text.OccursAt(toolType, ToolPrefix, i)) ==> r == LabelFor(toolType)
  {
    var name := Text.ReplaceFirst(toolType, ToolPrefix, "");
    if Text.StartsWith(toolType, ToolPrefix) then
      var rest := toolType[|ToolPrefix|..];
      assert toolType == ToolPrefix + rest;
      Text.ReplaceLeadingPattern(ToolPrefix, rest, "");
      assert name == rest;
      LabelFor(name)
    else LabelFor(name)
  }

  /** A part type "tool-<name>" shows the label of <name>, or the generic one for an unknown name. */
  lemma ToolDisplayNameOfType(name: string)
    ensures name in ToolLabels ==> ToolDisplayName(ToolPrefix + name) == ToolLabels[name]
    ensures name !in ToolLabels ==> ToolDisplayName(ToolPrefix + name) == GenericToolLabel
  {
    Text.ReplaceLeadingPattern(ToolPrefix, name, "");
    assert "" + name == name;
  }

  /** Each of the seven tools has a label of its own, none of them the generic one. */
  lemma ToolLabelsDistinct(s: ToolName, t: ToolName)
    ensures ToolDisplayName(ToolPrefix + ToolId(s)) != GenericToolLabel
    ensures s != t ==> ToolDisplayName(ToolPrefix + ToolId(s)) != ToolDisplayName(ToolPrefix + ToolId(t))
  {
    ToolDisplayNameOfType(ToolId(s));
    ToolDisplayNameOfType(ToolId(t));
  }

  // ---------------------------------------------------------------------------
  // Submitting and status

  /** The chat transport's status. */
  datatype ChatStatus = Ready | Submitted | Streaming | Errored

  /** What a submit does: the text it sends, if any, and the input box afterwards. */
  datatype SubmitOutcome = SubmitOutcome(sent: Option<string>, input: string)

  /**
   `handleSubmit`: sends the input as typed and clears the box only when the
   input is not blank and the chat is ready; otherwise nothing changes.
   */
  function HandleSubmit(input: string, status: ChatStatus): (r: SubmitOutcome)
    ensures r.sent.Some? <==> Text.Trim(input) != "" && status == Ready
    ensures r.sent.Some? ==> r.sent.value == input && r.input == ""
    ensures r.sent.None? ==> r.input == input
  {
    if Text.Trim(input) == "" || status != Ready then SubmitOutcome(None, input)
    else SubmitOutcome(Some(input), "")
  }

  /** Input made only of white space is never sent; anything else is sent whenever the chat is ready. */
  lemma BlankInputNeverSent(input: string, status: ChatStatus)
    ensures HandleSubmit(input, status).sent.None? <==>
            status != Ready || forall i :: 0 <= i < |input| ==> Text.IsWhitespace(input[i])
  {
    Text.TrimEmptyIffBlank(input);
  }

  predicate IsLoading(status: ChatStatus) {
    status == Streaming || status == Submitted
  }

  predicate IsStreaming(status: ChatStatus) {
    status == Streaming
  }

  /** The header's status label. */
  function StatusLabel(status: ChatStatus): (r: string)
    ensures r == "Online" <==> status == Ready
    ensures r == "Responding..." <==> IsStreaming(status)
    ensures r == "Thinking..." <==> !IsStreaming(status) && status != Ready
    ensures IsLoading(status) && !IsStreaming(status) ==> r == "Thinking..."
  {
    if status == Ready then "Online"
    else if status == Streaming then "Responding..."
    else "Thinking..."
  }

  /** The chat is loading exactly when it is neither ready nor failed, and streaming implies loading. */
  lemma LoadingFlags(status: ChatStatus)
    ensures IsLoading(status) <==> status != Ready && status != Errored
    ensures IsStreaming(status) ==> IsLoading(status)
  {
  }

  // ---------------------------------------------------------------------------
  // Markdown segments

  /**
   `s.slice(k, -k)` for `k >= 1`: the characters strictly between the first
   `k` and the last `k`, or "" when they overlap.
   */
  function SliceInner(s: string, k: nat): (r: string)
    requires k >= 1
    ensures |s| >= 2 * k ==> s == s[..k] + r + s[|s| - k..]
    ensures |s| < 2 * k ==> r == ""
  {
    if |s| >= 2 * k then s[k..|s| - k] else ""
  }

  /**
   The per-segment decision of the inline renderers: a segment that starts and
   ends with `delim` is shown without it.
   */
  function Unwrap(segment: string, delim: string): (r: Option<string>)
    requires delim != ""
    ensures r.Some? <==> Text.StartsWith(segment, delim) && Text.EndsWith(segment, delim)
    ensures r.Some? && |segment| >= 2 * |delim| ==> segment == delim + r.value + delim
    ensures r.Some? && |segment| < 2 * |delim| ==> r.value == ""
  {
    if Text.StartsWith(segment, delim) && Text.EndsWith(segment, delim) then Some(SliceInner(segment, |delim|))
    else None
  }

  /** Wrapping content in a delimiter and unwrapping it gives the content back. */
  lemma UnwrapRoundTrip(content: string, delim: string)
    requires delim != ""
    ensures Unwrap(delim + content + delim, delim) == Some(content)
  {
    var s := delim + content + delim;
    assert s[..|delim|] == delim;
    assert s[|s| - |delim|..] == delim;
    assert s[|delim|..|s| - |delim|] == content;
  }

  const Fence: string := "```"
  const InlineCodeMark: string := "`"
  const BoldMark: string := "**"
  const ItalicMark: string := "*"

  /**
   The three inline decisions, in the order the renderer nests them: inline
   code, then bold, then italic. Each marked text unwraps to its content.
   */
  lemma InlineMarksRoundTrip(content: string)
    ensures Unwrap(InlineCodeMark + content + InlineCodeMark, InlineCodeMark) == Some(content)
    ensures Unwrap(BoldMark + content + BoldMark, BoldMark) == Some(content)
    ensures Unwrap(ItalicMark + content + ItalicMark, ItalicMark) == Some(content)
  {
    UnwrapRoundTrip(content, InlineCodeMark);
    UnwrapRoundTrip(content, BoldMark);
    UnwrapRoundTrip(content, ItalicMark);
  }

  /** A fenced code block: its optional language tag and its code. */
  datatype CodeBlock = CodeBlock(language: string, code: string)

  /**
   The inside of a fence: when the first newline is past index 0, the
   trimmed text before it is the language and the rest follows the newline;
   otherwise there is no language and all of it is code.
   */
  function SplitFenceContent(content: string): (b: CodeBlock)
    ensures Text.IndexOfChar(content, '\n') > 0 ==>
              var n := Text.IndexOfChar(content, '\n');
              content == content[..n] + "\n" + b.code && b.language == Text.Trim(content[..n])
    ensures Text.IndexOfChar(content, '\n') <= 0 ==> b == CodeBlock("", content)
  {
    var n := Text.IndexOfChar(content, '\n');
    if n > 0 then
      assert content == content[..n] + "\n" + content[n + 1..];
      CodeBlock(Text.Trim(content[..n]), content[n + 1..])
    else CodeBlock("", content)
  }

  /** A markdown part rendered as a code block, when it is fenced. */
  function FencedBlock(part: string): (r: Option<CodeBlock>)
    ensures r.Some? <==> Text.StartsWith(part, Fence) && Text.EndsWith(part, Fence)
  {
    match Unwrap(part, Fence)
    case Some(content) => Some(SplitFenceContent(content))
    case None => None
  }

  /** Any fenced content is read by `SplitFenceContent`, untrimmed tag lines included. */
  lemma FencedBlockOfContent(content: string)
    ensures FencedBlock(Fence + content + Fence) == Some(SplitFenceContent(content))
  {
    UnwrapRoundTrip(content, Fence);
  }

  /** A fence with a one-line language tag gives back that tag and the code. */
  lemma FenceRoundTrip(language: string, code: string)
    requires language != [] && '\n' !in language
    requires Text.Trim(language) == language
    ensures FencedBlock(Fence + language + "\n" + code + Fence) == Some(CodeBlock(language, code))
  {
    var content := language + "\n" + code;
    assert Fence + language + "\n" + code + Fence == Fence + content + Fence;
    UnwrapRoundTrip(content, Fence);
    var n := Text.IndexOfChar(content, '\n');
    assert content[|language|] == '\n';
    assert content[..|language|] == language;
    assert n == |language|;
    assert content[n + 1..] == code;
  }

  /** A fence whose content does not open with a tag line is all code. */
  lemma FenceWithoutLanguage(code: string)
    requires '\n' !in code || code[0] == '\n'
    ensures FencedBlock(Fence + code + Fence) == Some(CodeBlock("", code))
  {
    UnwrapRoundTrip(code, Fence);
  }

  // ---------------------------------------------------------------------------
  // Theme

  datatype Theme = Light | Dark

  /** `toggleTheme`. */
  function ToggleTheme(t: Theme): (r: Theme)
    ensures r != t
  {
    if t == Light then Dark else Light
  }

  /** Toggling twice restores the theme. */
  lemma ToggleThemeInvolution(t: Theme)
    ensures ToggleTheme(ToggleTheme(t)) == t
  {
  }
}
