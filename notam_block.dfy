/** The airport NOTAM card (components/Airport/AirportNotamBlock.tsx): which view
    it shows, the first-line preview of each NOTAM, the severity chip and the two
    expand toggles. */
module NotamBlock {
  import opened Wrappers

  // ---------------------------------------------------------------------------
  // First line

  /** `s.split('\n')[0]`: the text before the first line feed. */
  function BeforeNewline(s: string): (line: string)
    ensures |line| <= |s| && line == s[..|line|]
    ensures '\n' !in line
    ensures |line| < |s| ==> s[|line|] == '\n'
    decreases |s|
  {
    if s == [] || s[0] == '\n' then "" else [s[0]] + BeforeNewline(s[1..])
  }

  const PreviewLength: nat := 120

  /** `getFirstLine(description)`: '' for an empty or absent description, else the
      first line, cut to 120 characters plus '...' when it is longer. */
  function FirstLine(description: Option<string>): (r: string)
    ensures |r| <= PreviewLength + 3
    ensures '\n' !in r
  {
    if description.None? || description.value == "" then ""
    else
      var line := BeforeNewline(description.value);
      if |line| > PreviewLength then line[..PreviewLength] + "..." else line
  }

  /** The preview is the whole first line when it has at most 120 characters, and
      otherwise its first 120 characters followed by '...'. */
  lemma FirstLineSpec(description: string)
    ensures var r := FirstLine(Some(description));
      var line := BeforeNewline(description);
      && (|line| <= PreviewLength ==> r == line && r == description[..|r|])
      && (|line| > PreviewLength ==>
            |r| == PreviewLength + 3 && r[..PreviewLength] == description[..PreviewLength] && r[PreviewLength..] == "...")
  {
    var line := BeforeNewline(description);
    if |line| > PreviewLength {
      assert line[..PreviewLength] == description[..PreviewLength];
    }
  }

  /** Taking the first line of a preview gives the preview back. */
  lemma FirstLineIdempotent(description: Option<string>)
    ensures FirstLine(Some(FirstLine(description))) == FirstLine(description)
  {
    var r := FirstLine(description);
    if r != "" {
      BeforeNewlineOfLine(r);
      if |r| > PreviewLength {
        assert r[..PreviewLength] + "..." == r;
      }
    }
  }

  /** A text without a line feed is its own first line. */
  lemma {:induction false} BeforeNewlineOfLine(s: string)
    requires '\n' !in s
    ensures BeforeNewline(s) == s
    decreases |s|
  {
    if s != [] {
      BeforeNewlineOfLine(s[1..]);
    }
  }

  // ---------------------------------------------------------------------------
  // Severity

  datatype ChipColor = ErrorColor | WarningColor | InfoColor
  datatype SeverityIcon = ErrorIcon | WarningIcon | InfoIcon

  /** The severity, with the parameter default 'medium' for an absent one. */
  function SeverityOrDefault(severity: Option<string>): string {
    severity.GetOr("medium")
  }

  /** `getSeverityColor(severity)` */
  function SeverityColor(severity: Option<string>): ChipColor {
    match SeverityOrDefault(severity)
    case "high" => ErrorColor
    case "medium" => WarningColor
    case "low" => InfoColor
    case _ => WarningColor
  }

  /** `getSeverityIcon(severity)` */
  function SeverityIconFor(severity: Option<string>): SeverityIcon {
    match SeverityOrDefault(severity)
    case "high" => ErrorIcon
    case "medium" => WarningIcon
    case "low" => InfoIcon
    case _ => WarningIcon
  }

  function IconOfColor(c: ChipColor): SeverityIcon {
    match c
    case ErrorColor => ErrorIcon
    case WarningColor => WarningIcon
    case InfoColor => InfoIcon
  }

  /** The icon always matches the colour; only 'high' and 'low' leave the
      warning colour, and an absent severity reads as 'medium'. */
  lemma SeverityMappingsAgree(severity: Option<string>)
    ensures SeverityIconFor(severity) == IconOfColor(SeverityColor(severity))
    ensures SeverityColor(severity) == ErrorColor <==> severity == Some("high")
    ensures SeverityColor(severity) == InfoColor <==> severity == Some("low")
    ensures SeverityColor(None) == SeverityColor(Some("medium")) == WarningColor
  {
  }

  // ---------------------------------------------------------------------------
  // Toggles

  /** `expandedNotamId === id ? null : id` */
  function ToggledNotamId(current: Option<int>, id: int): Option<int> {
    if current == Some(id) then None else Some(id)
  }

  /** Toggling the same NOTAM twice restores the state exactly when no NOTAM or
      that NOTAM was open; when another NOTAM was open it ends closed. */
  lemma ToggleNotamTwice(current: Option<int>, id: int)
    ensures ToggledNotamId(ToggledNotamId(current, id), id) == current <==> current == None || current == Some(id)
    ensures current.Some? && current != Some(id) ==> ToggledNotamId(ToggledNotamId(current, id), id) == None
  {
  }

  /** The card's two pieces of state. */
  class NotamBlockState {
    var expanded: bool
    var expandedNotamId: Option<int>

    constructor()
      ensures !expanded && expandedNotamId == None
    {
      expanded := false;
      expandedNotamId := None;
    }

    /** `toggleExpand()`: flips the card, leaves the open NOTAM. */
    method ToggleExpand()
      modifies this
      ensures expanded == !old(expanded)
      ensures expandedNotamId == old(expandedNotamId)
    {
      expanded := !expanded;
    }

    /** `toggleNotamExpand(id)`: at most one NOTAM is open; clicking the open one closes it. */
    method ToggleNotamExpand(id: int)
      modifies this
      ensures expandedNotamId == ToggledNotamId(old(expandedNotamId), id)
      ensures expandedNotamId == Some(id) <==> old(expandedNotamId) != Some(id)
      ensures expanded == old(expanded)
    {
      expandedNotamId := ToggledNotamId(expandedNotamId, id);
    }
  }

  // ---------------------------------------------------------------------------
  // What the card shows

  /** A NOTAM as the card receives it. */
  datatype NotamItem = NotamItem(
    id: int,
    title: string,
    description: Option<string>,
    location: string,
    kind: Option<string>,
    severity: Option<string>)

  /** A collapsed-preview line: chip label and colour, and the text. */
  datatype PreviewLine = PreviewLine(chip: string, color: ChipColor, text: string)

  /** An entry of the expanded list; `detail` is the full description when open. */
  datatype ListEntry = ListEntry(
    chip: string,
    color: ChipColor,
    title: string,
    firstLine: string,
    location: Option<string>,
    detail: Option<string>)

  datatype View =
    | LoadingView
    | ErrorView(message: string)
    | NoNotamsView
    | ListView(total: int, preview: seq<PreviewLine>, more: Option<int>, entries: seq<ListEntry>)

  /** `notam.type || 'NOTAM'` */
  function ChipLabel(n: NotamItem): string {
    if n.kind.Some? && n.kind.value != "" then n.kind.value else "NOTAM"
  }

  /** `getFirstLine(notam.description) || notam.title` */
  function PreviewLineOf(n: NotamItem): (r: PreviewLine)
    ensures '\n' !in r.text || r.text == n.title
    ensures r.text == "" <==> FirstLine(n.description) == "" && n.title == ""
    ensures r.color == SeverityColor(n.severity)
  {
    var line := FirstLine(n.description);
    PreviewLine(ChipLabel(n), SeverityColor(n.severity), if line != "" then line else n.title)
  }

  function EntryOf(n: NotamItem, expandedNotamId: Option<int>): ListEntry {
    ListEntry(
      ChipLabel(n),
      SeverityColor(n.severity),
      n.title,
      FirstLine(n.description),
      if n.location != "" then Some(n.location) else None,
      if expandedNotamId == Some(n.id) then Some(n.description.GetOr("")) else None)
  }

  /** The collapsed preview: `notams.slice(0, 3)` and the "+ N more" note. */
  function Preview(notams: seq<NotamItem>, total: int): (p: (seq<PreviewLine>, Option<int>))
    ensures |p.0| == if |notams| < 3 then |notams| else 3
    ensures forall i | 0 <= i < |p.0| :: p.0[i] == PreviewLineOf(notams[i])
    ensures p.1.Some? <==> total > 3
    ensures p.1.Some? ==> p.1.value == total - 3 && p.1.value > 0
  {
    var shown := if |notams| < 3 then notams else notams[..3];
    (seq(|shown|, i requires 0 <= i < |shown| => PreviewLineOf(shown[i])),
     if total > 3 then Some(total - 3) else None)
  }

  /** The card: loading wins over an error, an error over an empty total, and
      only then is the list shown, collapsed (preview) or expanded (entries). */
  function Render(loading: bool, error: Option<string>, total: int, notams: seq<NotamItem>,
                  expanded: bool, expandedNotamId: Option<int>): View
  {
    if loading then LoadingView
    else if error.Some? && error.value != "" then ErrorView(error.value)
    else if total == 0 then NoNotamsView
    else if !expanded then
      var p := Preview(notams, total);
      ListView(total, p.0, p.1, [])
    else
      ListView(total, [], None,
        seq(|notams|, i requires 0 <= i < |notams| => EntryOf(notams[i], expandedNotamId)))
  }

  /** Precedence: each view hides every input of lower precedence. */
  lemma RenderPrecedence(error: Option<string>, total: int, notams: seq<NotamItem>, expanded: bool,
                         openId: Option<int>, error2: Option<string>, total2: int, notams2: seq<NotamItem>,
                         expanded2: bool, openId2: Option<int>)
    ensures Render(true, error, total, notams, expanded, openId) == Render(true, error2, total2, notams2, expanded2, openId2)
    ensures error.Some? && error.value != "" ==>
      Render(false, error, total, notams, expanded, openId) == Render(false, error, total2, notams2, expanded2, openId2)
    ensures (error.None? || error.value == "") && (error2.None? || error2.value == "") ==>
      Render(false, error, 0, notams, expanded, openId) == Render(false, error2, 0, notams2, expanded2, openId2)
  {
  }

  /** The list view: collapsed, at most three preview lines and a "+ N more" note
      exactly when the total exceeds three; expanded, one entry per NOTAM in
      order, with the full text under exactly the open one. */
  lemma ListViewSpec(total: int, notams: seq<NotamItem>, expanded: bool, openId: Option<int>)
    requires total != 0
    ensures var v := Render(false, None, total, notams, expanded, openId);
      && v.ListView? && v.total == total
      && (!expanded ==>
            && |v.preview| <= 3 && |v.preview| <= |notams| && v.entries == []
            && (v.more.Some? <==> total > 3)
            && (v.more.Some? ==> v.more.value == total - 3))
      && (expanded ==>
            && v.preview == [] && v.more == None && |v.entries| == |notams|
            && forall i | 0 <= i < |notams| ::
                 v.entries[i].title == notams[i].title
                 && (v.entries[i].detail.Some? <==> openId == Some(notams[i].id)))
  {
  }
}
