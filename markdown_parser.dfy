/** The Markdown task parser: it finds checkbox lines such as
    `- [ ] Title {id: T-ABC12, status: doing, tags: [a, b]}`, reads the optional
    attribute block after the title and the `defaults:` section of a front matter,
    and hands each line to the task factory. */
module MarkdownParser {
  import opened Wrappers
  import opened Text
  import opened Seqs
  import opened TaskIds
  import opened TaskStatuses
  import opened TaskAttrs
  import opened Tasks
  import opened TaskFactory

  /** A value in an attribute block or in the defaults: a string, or a bracketed list. */
  datatype AttrValue = Scalar(s: string) | List(items: seq<string>)

  type AttributeMap = map<string, AttrValue>

  /** What a checkbox line holds: the character between the brackets, the title, the
      raw attribute block (from the first `{`), and the column of the checkbox. */
  datatype TaskLineMatch = TaskLineMatch(token: char, title: string, attributeSource: Option<string>, column: nat)

  // ---------------------------------------------------------------------------
  // Checkbox lines

  /** The shape of `^(\s*)[-*]\s\[([^\]])\]\s*(.*)$` after the leading whitespace:
      a bullet, one whitespace character, a bracketed character other than `]`, and
      a remainder that holds no line terminator once its leading whitespace is gone. */
  predicate IsCheckbox(after: string) {
    |after| >= 5 && (after[0] == '-' || after[0] == '*') && IsWhitespace(after[1])
    && after[2] == '[' && after[3] != ']' && after[4] == ']'
    && NoLineTerminator(TrimStart(after[5..]))
  }

  /** `splitTitleAndAttributes`: the title is what precedes the first `{`; the block
      runs from that brace to the last `}` (an empty slice when that brace comes
      first), or to the end of the line when there is no closing brace. */
  function SplitTitleAndAttributes(source: string): (r: (string, Option<string>))
    ensures IsTrimmed(r.0) && '{' !in r.0
    ensures r.1.None? <==> '{' !in source
    ensures r.1.None? ==> r.0 == Trim(source)
    ensures r.1.Some? && r.1.value != [] ==> r.1.value[0] == '{'
    ensures IndexOf(source, '{').Some? ==> r.0 == Trim(source[..IndexOf(source, '{').value])
    ensures IndexOf(source, '{').Some? && LastIndexOf(source, '}').Some?
      && IndexOf(source, '{').value <= LastIndexOf(source, '}').value
      ==> r.1 == Some(source[IndexOf(source, '{').value..LastIndexOf(source, '}').value + 1])
    ensures IndexOf(source, '{').Some? && LastIndexOf(source, '}').Some?
      && LastIndexOf(source, '}').value < IndexOf(source, '{').value
      ==> r.1 == Some([])
    ensures IndexOf(source, '{').Some? && LastIndexOf(source, '}').None?
      ==> r.1 == Some(source[IndexOf(source, '{').value..])
  {
    match IndexOf(source, '{')
    case None =>
      TrimKeepsCharacters(source);
      (Trim(source), None)
    case Some(b) =>
      var title := Trim(source[..b]);
      TrimKeepsCharacters(source[..b]);
      var block :=
        match LastIndexOf(source, '}')
        case Some(c) => if b <= c then source[b..c + 1] else []
        case None => source[b..];
      (title, Some(block))
  }

  /** `matchTaskLine`: the column is the width of the leading whitespace plus the two
      characters of the bullet and its space. */
  function MatchTaskLine(line: string): (r: Option<TaskLineMatch>)
    ensures r.Some? <==> IsCheckbox(line[|LeadingWhitespace(line)|..])
    ensures r.Some? ==> r.value.column == |LeadingWhitespace(line)| + 2 && r.value.column <= |line|
    ensures r.Some? ==> r.value.token == line[|LeadingWhitespace(line)| + 3] && r.value.token != ']'
    ensures r.Some? ==> IsTrimmed(r.value.title) && '{' !in r.value.title
  {
    var leading := LeadingWhitespace(line);
    var after := line[|leading|..];
    if IsCheckbox(after) then
      var (title, attributes) := SplitTitleAndAttributes(TrimStart(after[5..]));
      Some(TaskLineMatch(after[3], title, attributes, |leading| + 2))
    else None
  }

  /** `checkboxTokenToStatus`: `x`, `X` and `*` mark a finished task. */
  function CheckboxTokenToStatus(token: char): (r: string)
    ensures r == "done" <==> token == 'x' || token == 'X' || token == '*'
    ensures r == "done" || r == "todo"
  {
    var normalized := Lower(Trim([token]));
    assert |normalized| <= 1;
    assert IsWhitespace(token) ==> Trim([token]) == [] by {
      if IsWhitespace(token) {
        assert [token][1..] == [];
        assert TrimStart([token]) == [];
      }
    }
    assert !IsWhitespace(token) ==> Trim([token]) == [token] by {
      if !IsWhitespace(token) { TrimOfTrimmed([token]); }
    }
    if normalized == "x" || normalized == "*" || normalized == "done" then "done" else "todo"
  }

  /** `normalizeStatus`: nothing for a missing or blank value, otherwise the trimmed,
      lower-cased value. */
  function NormalizeStatus(value: Option<string>): (r: Option<string>)
    ensures r.Some? <==> value.Some? && Trim(value.value) != []
    ensures r.Some? ==> |r.value| == |Trim(value.value)| && IsTrimmed(r.value)
    ensures r.Some? ==> forall i :: 0 <= i < |r.value| ==> !IsUpperLetter(r.value[i])
  {
    match value
    case None => None
    case Some(v) =>
      var t := Trim(v);
      if v == [] || t == [] then None
      else
        LowerKeepsTrimmed(t);
        Some(Lower(t))
  }

  /** Normalising a normalised status changes nothing. */
  lemma NormalizeStatusIdempotent(value: Option<string>)
    ensures NormalizeStatus(NormalizeStatus(value)) == NormalizeStatus(value)
  {
    var r := NormalizeStatus(value);
    if r.Some? {
      TrimOfTrimmed(r.value);
      LowerOfLowerCase(r.value);
    }
  }

  /** `stripWrappingQuotes`: one pair of matching double or single quotes is removed;
      a lone quote character becomes the empty string. */
  function StripWrappingQuotes(value: string): (r: string)
    ensures |value| >= 2 && value[0] == value[|value| - 1] && (value[0] == '"' || value[0] == '\'')
      ==> r == value[1..|value| - 1]
    ensures value == [] || (value[0] != '"' && value[0] != '\'') ==> r == value
  {
    if (StartsWith(value, "\"") && EndsWith(value, "\"")) || (StartsWith(value, "'") && EndsWith(value, "'")) then
      if |value| >= 2 then value[1..|value| - 1] else []
    else value
  }

  // ---------------------------------------------------------------------------
  // Splitting at top-level separators

  /** The state of `splitTopLevel` after a prefix of its input: the pieces pushed so
      far, the bracket depth, and the piece being collected. */
  datatype SplitState = SplitState(pieces: seq<string>, depth: nat, current: string)

  const StartState: SplitState := SplitState([], 0, [])

  /** `[` opens a level; `]` closes one when one is open. */
  function DepthAfter(depth: nat, c: char): nat {
    if c == '[' then depth + 1 else if c == ']' && depth > 0 then depth - 1 else depth
  }

  function SplitStep(st: SplitState, c: char, separator: char): SplitState {
    var depth := DepthAfter(st.depth, c);
    if c == separator && depth == 0 then SplitState(st.pieces + [Trim(st.current)], depth, [])
    else SplitState(st.pieces, depth, st.current + [c])
  }

  /** The state after reading `s`, starting from `st`. */
  function Scan(st: SplitState, s: string, separator: char): SplitState
    decreases |s|
  {
    if s == [] then st else SplitStep(Scan(st, s[..|s| - 1], separator), s[|s| - 1], separator)
  }

  /** Reading more input only appends pieces, and every appended piece is trimmed. */
  lemma {:induction false} ScanKeepsPieces(st: SplitState, s: string, separator: char)
    ensures var r := Scan(st, s, separator);
      && |st.pieces| <= |r.pieces| && r.pieces[..|st.pieces|] == st.pieces
      && ((forall i :: 0 <= i < |st.pieces| ==> IsTrimmed(st.pieces[i]))
          ==> forall i :: 0 <= i < |r.pieces| ==> IsTrimmed(r.pieces[i]))
    decreases |s|
  {
    if s != [] {
      ScanKeepsPieces(st, s[..|s| - 1], separator);
    }
  }

  /** The pieces `splitTopLevel` returns: one per top-level separator, and a last one
      only when it is not blank. */
  function TopLevelPieces(source: string, separator: char): seq<string> {
    var st := Scan(StartState, source, separator);
    var last := Trim(st.current);
    st.pieces + (if last != [] then [last] else [])
  }

  /** Each piece is trimmed. */
  lemma TopLevelPiecesTrimmed(source: string, separator: char)
    ensures var r := TopLevelPieces(source, separator); forall i :: 0 <= i < |r| ==> IsTrimmed(r[i])
  {
    ScanKeepsPieces(StartState, source, separator);
  }

  /** Reading `a` and then `b` is reading `a + b`. */
  lemma {:induction false} ScanConcat(st: SplitState, a: string, b: string, separator: char)
    ensures Scan(st, a + b, separator) == Scan(Scan(st, a, separator), b, separator)
    decreases |b|
  {
    if b == [] {
      assert a + b == a;
    } else {
      assert (a + b)[..|a + b| - 1] == a + b[..|b| - 1];
      ScanConcat(st, a, b[..|b| - 1], separator);
    }
  }

  /** `splitTopLevel`. */
  method SplitTopLevel(source: string, separator: char) returns (result: seq<string>)
    ensures result == TopLevelPieces(source, separator)
  {
    result := [];
    var depth: nat := 0;
    var current := "";
    for index := 0 to |source|
      invariant SplitState(result, depth, current) == Scan(StartState, source[..index], separator)
    {
      var c := source[index];
      assert source[..index + 1][..index] == source[..index];
      ghost var next := SplitStep(SplitState(result, depth, current), c, separator);
      assert next == Scan(StartState, source[..index + 1], separator);
      if c == '[' {
        depth := depth + 1;
      } else if c == ']' && depth > 0 {
        depth := depth - 1;
      }
      if c == separator && depth == 0 {
        result := result + [Trim(current)];
        current := "";
        continue;
      }
      current := current + [c];
    }
    assert source[..|source|] == source;
    if Trim(current) != [] {
      result := result + [Trim(current)];
    }
  }

  // ---------------------------------------------------------------------------
  // Attribute values and blocks

  /** The list items: each piece trimmed and stripped of its quotes, blanks dropped.
      One piece gives its item unless that is blank; `ListItemsAppend` gives the
      order of longer lists. */
  function ListItems(pieces: seq<string>): (r: seq<string>)
    ensures |r| <= |pieces|
    ensures forall i :: 0 <= i < |r| ==> r[i] != []
    ensures |pieces| == 1 ==> r == (if StripWrappingQuotes(Trim(pieces[0])) != []
                                    then [StripWrappingQuotes(Trim(pieces[0]))] else [])
  {
    if pieces == [] then []
    else
      var v := StripWrappingQuotes(Trim(pieces[0]));
      (if v != [] then [v] else []) + ListItems(pieces[1..])
  }

  /** The items of two lists of pieces are those of the first, then those of the
      second. */
  lemma {:induction false} ListItemsAppend(a: seq<string>, b: seq<string>)
    ensures ListItems(a + b) == ListItems(a) + ListItems(b)
  {
    if a == [] {
      assert a + b == b;
    } else {
      assert (a + b)[0] == a[0];
      assert (a + b)[1..] == a[1..] + b;
      ListItemsAppend(a[1..], b);
    }
  }

  /** Every item comes from a piece. */
  lemma {:induction false} ListItemsFrom(pieces: seq<string>, i: nat)
    requires i < |ListItems(pieces)|
    ensures exists j :: 0 <= j < |pieces| && ListItems(pieces)[i] == StripWrappingQuotes(Trim(pieces[j]))
  {
    var v := StripWrappingQuotes(Trim(pieces[0]));
    var rest := ListItems(pieces[1..]);
    if v != [] && i == 0 {
      assert ListItems(pieces)[0] == v;
    } else {
      var k := if v != [] then i - 1 else i;
      assert ListItems(pieces)[i] == rest[k];
      ListItemsFrom(pieces[1..], k);
      var j :| 0 <= j < |pieces[1..]| && rest[k] == StripWrappingQuotes(Trim(pieces[1..][j]));
      assert pieces[1..][j] == pieces[j + 1];
    }
  }

  /** No non-blank item is dropped. */
  lemma {:induction false} ListItemsKeep(pieces: seq<string>, j: nat)
    requires j < |pieces| && StripWrappingQuotes(Trim(pieces[j])) != []
    ensures StripWrappingQuotes(Trim(pieces[j])) in ListItems(pieces)
  {
    var rest := ListItems(pieces[1..]);
    if j > 0 {
      assert pieces[j] == pieces[1..][j - 1];
      ListItemsKeep(pieces[1..], j - 1);
      var v := StripWrappingQuotes(Trim(pieces[0]));
      assert ListItems(pieces) == (if v != [] then [v] else []) + rest;
    }
  }

  /** Starts with `[` and ends with `]`; one character cannot do both. */
  predicate IsBracketed(raw: string) {
    |raw| >= 2 && raw[0] == '[' && raw[|raw| - 1] == ']'
  }

  /** `parseAttributeValue`: a bracketed value is a list of its top-level items,
      anything else a string without its wrapping quotes. */
  function ParseAttributeValue(raw: string): (r: AttrValue)
    ensures r.List? <==> IsBracketed(raw)
    ensures r.List? ==> r.items == ListItems(TopLevelPieces(raw[1..|raw| - 1], ','))
    ensures r.Scalar? ==> r.s == StripWrappingQuotes(raw)
  {
    if IsBracketed(raw) then
      List(ListItems(TopLevelPieces(raw[1..|raw| - 1], ',')))
    else Scalar(StripWrappingQuotes(raw))
  }

  /** A `key: value` entry, both sides trimmed. */
  datatype Entry = Entry(key: string, value: string)

  /** An entry needs a colon and a non-blank key before it. */
  function ParseEntry(entry: string): (r: Option<Entry>)
    ensures r.Some? <==> ':' in entry && Trim(entry[..IndexOf(entry, ':').value]) != []
    ensures r.Some? ==> r.value.key != [] && IsTrimmed(r.value.key) && ':' !in r.value.key
    ensures r.Some? ==> IsTrimmed(r.value.value)
    ensures r.Some? ==> r.value == Entry(Trim(entry[..IndexOf(entry, ':').value]),
                                         Trim(entry[IndexOf(entry, ':').value + 1..]))
  {
    match IndexOf(entry, ':')
    case None => None
    case Some(c) =>
      var key := Trim(entry[..c]);
      TrimKeepsCharacters(entry[..c]);
      if key == [] then None else Some(Entry(key, Trim(entry[c + 1..])))
  }

  /** A parsed entry: its key and its parsed value. */
  datatype Binding = Binding(key: string, value: AttrValue)

  function Bind(entry: string): Option<Binding>
  {
    match ParseEntry(entry)
    case None => None
    case Some(e) => Some(Binding(e.key, ParseAttributeValue(e.value)))
  }

  /** Every entry parsed on its own. */
  function ParseEntries(entries: seq<string>): (r: seq<Option<Binding>>)
    ensures |r| == |entries|
  {
    seq(|entries|, i requires 0 <= i < |entries| => Bind(entries[i]))
  }

  /** The map built from the bindings in order: a later key replaces an earlier one. */
  function BuildMap(es: seq<Option<Binding>>): AttributeMap
  {
    if es == [] then map[]
    else
      var m := BuildMap(es[..|es| - 1]);
      match es[|es| - 1]
      case None => m
      case Some(b) => m[b.key := b.value]
  }

  predicate Names(e: Option<Binding>, k: string) {
    e.Some? && e.value.key == k
  }

  /** A key is in the map exactly when some entry names it. */
  lemma {:induction false} BuildMapKeys(es: seq<Option<Binding>>, k: string)
    ensures k in BuildMap(es) <==> exists j :: 0 <= j < |es| && Names(es[j], k)
  {
    if es != [] {
      var n := |es| - 1;
      var init := es[..n];
      BuildMapKeys(init, k);
      if k in BuildMap(es) && !Names(es[n], k) {
        var j :| 0 <= j < |init| && Names(init[j], k);
        assert es[j] == init[j];
      }
      if exists j :: 0 <= j < |es| && Names(es[j], k) {
        var j :| 0 <= j < |es| && Names(es[j], k);
        if j < n {
          assert Names(init[j], k);
        }
      }
    }
  }

  /** The value a key gets is that of the last entry naming it. */
  lemma {:induction false} LastEntryWins(es: seq<Option<Binding>>, j: nat)
    requires j < |es| && es[j].Some?
    requires forall i :: j < i < |es| ==> !Names(es[i], es[j].value.key)
    ensures es[j].value.key in BuildMap(es)
    ensures BuildMap(es)[es[j].value.key] == es[j].value.value
  {
    if j < |es| - 1 {
      var init := es[..|es| - 1];
      assert init[j] == es[j];
      forall i | j < i < |init| ensures !Names(init[i], es[j].value.key) {
        assert init[i] == es[i];
      }
      LastEntryWins(init, j);
    }
  }

  /** The inside of an attribute block: the block must start with `{` and end with `}`
      once trimmed, and hold something besides the braces. */
  function BlockInner(raw: Option<string>): (r: Option<string>)
    ensures r.Some? ==> r.value != [] && IsTrimmed(r.value)
  {
    if raw.None? || raw.value == [] then None
    else
      var trimmed := Trim(raw.value);
      if !(StartsWith(trimmed, "{") && EndsWith(trimmed, "}")) then None
      else
        var inner := Trim(if |trimmed| >= 2 then trimmed[1..|trimmed| - 1] else []);
        if inner == [] then None else Some(inner)
  }

  /** `parseAttributeBlock`: the entries of the block, split at top-level commas. */
  function AttributeBlock(raw: Option<string>): AttributeMap
  {
    match BlockInner(raw)
    case None => map[]
    case Some(inner) => BuildMap(ParseEntries(TopLevelPieces(inner, ',')))
  }

  /** The loop of `parseAttributeBlock`: each entry with a key sets that key. */
  method CollectEntries(entries: seq<string>) returns (result: AttributeMap)
    ensures result == BuildMap(ParseEntries(entries))
  {
    result := map[];
    var bindings := ParseEntries(entries);
    for i := 0 to |bindings|
      invariant result == BuildMap(bindings[..i])
    {
      BuildMapSnoc(bindings[..i], bindings[i]);
      assert bindings[..i + 1] == bindings[..i] + [bindings[i]];
      if bindings[i].None? {
        continue;
      }
      result := result[bindings[i].value.key := bindings[i].value.value];
    }
    assert bindings[..|bindings|] == bindings;
  }

  lemma BuildMapSnoc(es: seq<Option<Binding>>, e: Option<Binding>)
    ensures BuildMap(es + [e]) == if e.None? then BuildMap(es) else BuildMap(es)[e.value.key := e.value.value]
  {
    assert (es + [e])[..|es|] == es;
  }

  /** `parseAttributeBlock`. */
  method ParseAttributeBlock(raw: Option<string>) returns (result: AttributeMap)
    ensures result == AttributeBlock(raw)
  {
    var block := BlockInner(raw);
    if block.None? {
      return map[];
    }
    var entries := SplitTopLevel(block.value, ',');
    result := CollectEntries(entries);
  }

  /** `omitKeys`. */
  function OmitKeys(m: AttributeMap, keys: set<string>): (r: AttributeMap)
    ensures forall k :: k in r <==> k in m && k !in keys
    ensures forall k :: k in r ==> r[k] == m[k]
  {
    m - keys
  }

  function ScalarField(m: AttributeMap, key: string): Field<string> {
    if key in m && m[key].Scalar? then Set(m[key].s) else Unset
  }

  function ListField(m: AttributeMap, key: string): Field<seq<string>> {
    if key in m && m[key].List? && |m[key].items| > 0 then Set(m[key].items) else Unset
  }

  /** `toTaskAttributesInput`: string values of `project`, `assignee` and `due`,
      non-empty lists of `tags` and `depends`; nothing at all when none is present. */
  function ToTaskAttributesInput(m: AttributeMap): (r: Option<AttributesInput>)
    ensures r.None? <==>
      ScalarField(m, "project").Unset? && ScalarField(m, "assignee").Unset? && ListField(m, "tags").Unset?
      && ScalarField(m, "due").Unset? && ListField(m, "depends").Unset?
    ensures r.Some? ==>
      !r.value.project.Clear? && !r.value.assignee.Clear? && !r.value.tags.Clear?
      && !r.value.due.Clear? && !r.value.depends.Clear?
    ensures r.Some? ==> r.value.tags.Set? ==> "tags" in m && m["tags"] == List(r.value.tags.value) && r.value.tags.value != []
  {
    var input := AttributesInput(
      ScalarField(m, "project"), ScalarField(m, "assignee"), ListField(m, "tags"),
      ScalarField(m, "due"), ListField(m, "depends"));
    if input == NoAttributesInput then None else Some(input)
  }

  /** Dropping `id` and `status` before the conversion makes no difference, since the
      conversion never reads them. */
  lemma OmitIdAndStatusIrrelevant(m: AttributeMap)
    ensures ToTaskAttributesInput(OmitKeys(m, {"id", "status"})) == ToTaskAttributesInput(m)
  {
    var o := OmitKeys(m, {"id", "status"});
    assert "project" !in {"id", "status"} && "assignee" !in {"id", "status"} && "tags" !in {"id", "status"};
    assert "due" !in {"id", "status"} && "depends" !in {"id", "status"};
    assert ScalarField(o, "project") == ScalarField(m, "project");
    assert ScalarField(o, "assignee") == ScalarField(m, "assignee");
    assert ScalarField(o, "due") == ScalarField(m, "due");
    assert ListField(o, "tags") == ListField(m, "tags");
    assert ListField(o, "depends") == ListField(m, "depends");
  }

  // ---------------------------------------------------------------------------
  // Defaults in the front matter

  /** What `parseDefaults` finds: attribute inputs and a status, at least one present. */
  datatype ParsedDefaults = ParsedDefaults(attributes: Option<AttributesInput>, status: Option<string>)

  predicate IsDefaultsHeader(line: string) {
    StartsWith(Trim(line), "defaults:")
  }

  predicate IsIndented(line: string) {
    StartsWith(line, "  ")
  }

  /** What one line of a `defaults:` section says. */
  datatype DefaultsItem = NoItem | StatusItem(status: Option<string>) | ValueItem(key: string, value: AttrValue)

  /** One line of the section: `status` gives the normalised status, any other key a
      value; a line without a colon or with a blank key says nothing. */
  function ReadDefaultsLine(line: string): DefaultsItem {
    match ParseEntry(Trim(line))
    case None => NoItem
    case Some(e) =>
      if e.key == "status" then StatusItem(NormalizeStatus(Some(StripWrappingQuotes(e.value))))
      else ValueItem(e.key, ParseAttributeValue(e.value))
  }

  /** The three questions `parseDefaults` asks about a line: does it open the section,
      is it indented, and what does it say inside the section. */
  datatype DefaultsLine = DefaultsLine(header: bool, indented: bool, item: DefaultsItem)

  function ClassifyDefaultsLine(line: string): DefaultsLine {
    DefaultsLine(IsDefaultsHeader(line), IsIndented(line), ReadDefaultsLine(line))
  }

  function ClassifyDefaultsLines(lines: seq<string>): (r: seq<DefaultsLine>)
    ensures |r| == |lines|
  {
    seq(|lines|, i requires 0 <= i < |lines| => ClassifyDefaultsLine(lines[i]))
  }

  /** The indented lines at the start of `ls`. */
  function IndentedPrefix(ls: seq<DefaultsLine>): seq<DefaultsLine> {
    if ls == [] || !ls[0].indented then [] else [ls[0]] + IndentedPrefix(ls[1..])
  }

  /** The indented prefix is a prefix, every line of it is indented, and it stops only
      at the end or at a line that is not. */
  lemma {:induction false} IndentedPrefixIsLongest(ls: seq<DefaultsLine>)
    ensures var r := IndentedPrefix(ls);
      && r <= ls
      && (forall k :: 0 <= k < |r| ==> r[k].indented)
      && (|r| < |ls| ==> !ls[|r|].indented)
  {
    if ls != [] && ls[0].indented {
      IndentedPrefixIsLongest(ls[1..]);
    }
  }

  /** The lines of the `defaults:` section: the indented lines after the first line
      that starts with `defaults:` once trimmed; nothing when there is no such line. */
  function DefaultsSection(ls: seq<DefaultsLine>): seq<DefaultsLine> {
    if ls == [] then []
    else if ls[0].header then IndentedPrefix(ls[1..])
    else DefaultsSection(ls[1..])
  }

  /** Without a `defaults:` line there is no section; with one, the section is the run
      of indented lines right after the first such line. */
  lemma {:induction false} DefaultsSectionAfterFirstHeader(ls: seq<DefaultsLine>)
    ensures (forall k :: 0 <= k < |ls| ==> !ls[k].header) ==> DefaultsSection(ls) == []
    ensures forall h :: 0 <= h < |ls| && ls[h].header && (forall k :: 0 <= k < h ==> !ls[k].header) ==>
      DefaultsSection(ls) == IndentedPrefix(ls[h + 1..])
  {
    if ls != [] {
      DefaultsSectionAfterFirstHeader(ls[1..]);
      forall h | 0 <= h < |ls| && ls[h].header && (forall k :: 0 <= k < h ==> !ls[k].header)
        ensures DefaultsSection(ls) == IndentedPrefix(ls[h + 1..])
      {
        if h > 0 {
          assert ls[1..][h - 1] == ls[h];
          assert ls[1..][h - 1 + 1..] == ls[h + 1..];
        }
      }
    }
  }

  /** The values and the status collected from the section so far. */
  datatype DefaultsState = DefaultsState(values: AttributeMap, status: Option<string>)

  const NoDefaults: DefaultsState := DefaultsState(map[], None)

  /** A later status replaces an earlier one, even with nothing; a later value replaces
      an earlier one under the same key. */
  function ApplyDefaultsItem(st: DefaultsState, item: DefaultsItem): DefaultsState {
    match item
    case NoItem => st
    case StatusItem(status) => st.(status := status)
    case ValueItem(key, value) => st.(values := st.values[key := value])
  }

  function FoldDefaults(section: seq<DefaultsLine>): DefaultsState {
    if section == [] then NoDefaults
    else ApplyDefaultsItem(FoldDefaults(section[..|section| - 1]), section[|section| - 1].item)
  }

  /** `parseDefaults`. */
  function Defaults(raw: string): (r: Option<ParsedDefaults>)
    ensures r.Some? ==> r.value.attributes.Some? || r.value.status.Some?
  {
    if Trim(raw) == [] then None
    else
      var st := FoldDefaults(DefaultsSection(ClassifyDefaultsLines(SplitLines(raw))));
      var attributes := ToTaskAttributesInput(st.values);
      if attributes.None? && st.status.None? then None else Some(ParsedDefaults(attributes, st.status))
  }

  /** A status item holds a status `normalizeStatus` leaves as it is. */
  predicate StatusIsNormal(l: DefaultsLine) {
    l.item.StatusItem? && l.item.status.Some? ==> NormalizeStatus(l.item.status) == l.item.status
  }

  lemma ReadStatusIsNormal(line: string)
    ensures StatusIsNormal(ClassifyDefaultsLine(line))
  {
    match ParseEntry(Trim(line))
    case None =>
    case Some(e) =>
      if e.key == "status" {
        NormalizeStatusIdempotent(Some(StripWrappingQuotes(e.value)));
      }
  }

  lemma {:induction false} SectionLinesComeFromInput(ls: seq<DefaultsLine>)
    ensures forall l :: l in DefaultsSection(ls) ==> l in ls
  {
    if ls != [] {
      if ls[0].header {
        IndentedPrefixIsLongest(ls[1..]);
      } else {
        SectionLinesComeFromInput(ls[1..]);
      }
    }
  }

  lemma {:induction false} FoldStatusIsNormal(section: seq<DefaultsLine>)
    requires forall l :: l in section ==> StatusIsNormal(l)
    ensures var s := FoldDefaults(section).status; s.Some? ==> NormalizeStatus(s) == s
  {
    if section != [] {
      assert section[|section| - 1] in section;
      FoldStatusIsNormal(section[..|section| - 1]);
    }
  }

  lemma SectionStatusIsNormal(lines: seq<string>)
    ensures var s := FoldDefaults(DefaultsSection(ClassifyDefaultsLines(lines))).status;
      s.Some? ==> NormalizeStatus(s) == s
  {
    var ls := ClassifyDefaultsLines(lines);
    forall l | l in ls ensures StatusIsNormal(l) {
      var k :| 0 <= k < |ls| && ls[k] == l;
      ReadStatusIsNormal(lines[k]);
    }
    SectionLinesComeFromInput(ls);
    FoldStatusIsNormal(DefaultsSection(ls));
  }

  /** A status from the defaults is always normalised, so the task status the parser
      derives from it is that very string. */
  lemma DefaultsStatusIsNormalised(raw: string)
    ensures var r := Defaults(raw); r.Some? && r.value.status.Some? ==> NormalizeStatus(r.value.status) == r.value.status
  {
    SectionStatusIsNormal(SplitLines(raw));
  }

  lemma SectionFrom(ls: seq<DefaultsLine>, i: nat)
    requires i < |ls|
    ensures DefaultsSection(ls[i..]) == if ls[i].header then IndentedPrefix(ls[i + 1..]) else DefaultsSection(ls[i + 1..])
  {
    assert ls[i..][1..] == ls[i + 1..];
  }

  lemma PrefixFrom(ls: seq<DefaultsLine>, i: nat)
    requires i < |ls| && ls[i].indented
    ensures IndentedPrefix(ls[i..]) == [ls[i]] + IndentedPrefix(ls[i + 1..])
  {
    assert ls[i..][1..] == ls[i + 1..];
  }

  lemma FoldExtend(ls: seq<DefaultsLine>, h: nat, i: nat)
    requires h <= i < |ls|
    ensures FoldDefaults(ls[h..i + 1]) == ApplyDefaultsItem(FoldDefaults(ls[h..i]), ls[i].item)
  {
    assert ls[h..i + 1][..i - h] == ls[h..i];
  }

  /** The loop of `parseDefaults` over classified lines: skip to the `defaults:` header,
      then read indented lines until the first line that is not. */
  method CollectDefaults(ls: seq<DefaultsLine>) returns (st: DefaultsState)
    ensures st == FoldDefaults(DefaultsSection(ls))
  {
    st := NoDefaults;
    var capturing := false;
    ghost var header: nat := 0;
    var i := 0;
    while i < |ls|
      invariant 0 <= i <= |ls|
      invariant !capturing ==> st == NoDefaults && DefaultsSection(ls) == DefaultsSection(ls[i..])
      invariant capturing ==> header < i
      invariant capturing ==> DefaultsSection(ls) == ls[header + 1..i] + IndentedPrefix(ls[i..])
      invariant capturing ==> st == FoldDefaults(ls[header + 1..i])
    {
      var line := ls[i];
      if !capturing {
        SectionFrom(ls, i);
        if line.header {
          capturing := true;
          header := i;
          assert ls[header + 1..i + 1] == [];
        }
        i := i + 1;
        continue;
      }
      if !line.indented {
        assert IndentedPrefix(ls[i..]) == [];
        assert DefaultsSection(ls) == ls[header + 1..i];
        return;
      }
      PrefixFrom(ls, i);
      FoldExtend(ls, header + 1, i);
      assert ls[header + 1..i + 1] == ls[header + 1..i] + [line];
      st := ApplyDefaultsItem(st, line.item);
      i := i + 1;
    }
    assert ls[i..] == [];
    if capturing {
      assert DefaultsSection(ls) == ls[header + 1..i];
    } else {
      assert DefaultsSection(ls) == [];
    }
  }

  /** `parseDefaults`. */
  method ParseDefaults(raw: string) returns (r: Option<ParsedDefaults>)
    ensures r == Defaults(raw)
  {
    if Trim(raw) == [] {
      return None;
    }
    var st := CollectDefaults(ClassifyDefaultsLines(SplitLines(raw)));
    var attributes := ToTaskAttributesInput(st.values);
    if attributes.None? && st.status.None? {
      return None;
    }
    return Some(ParsedDefaults(attributes, st.status));
  }

  // ---------------------------------------------------------------------------
  // The parser

  /** `MarkdownTaskParserInput`: one file's content and path. */
  datatype ParserInput = ParserInput(content: string, filePath: string)

  /** `MarkdownTaskParserIssue`: a line the factory refused, with the factory's error. */
  datatype ParserIssue = ParserIssue(message: string, line: nat, column: nat, detail: FactoryError)

  /** `MarkdownTaskParserOutput`. */
  datatype ParserOutput = ParserOutput(tasks: seq<Task>, issues: seq<ParserIssue>)

  /** The task factory the parser is built with; `TaskFactory.Outcome` by default. */
  type Factory = FactoryInput -> Result<Task, FactoryError>

  /** What the parser makes of one line of the body. */
  datatype LineOutcome = Skipped | Produced(task: Task) | Reported(issue: ParserIssue)

  predicate IsFence(line: string) {
    Trim(line) == "---"
  }

  /** Which lines are fences. */
  function Fences(lines: seq<string>): (r: seq<bool>)
    ensures |r| == |lines|
  {
    seq(|lines|, i requires 0 <= i < |lines| => IsFence(lines[i]))
  }

  /** A front matter opens only on the very first line. */
  predicate OpensFrontMatter(lines: seq<string>) {
    |lines| > 0 && Fences(lines)[0]
  }

  /** The index of the first `true` at or after `from`, or `|fs|` when there is none. */
  function FirstFence(fs: seq<bool>, from: nat): (r: nat)
    requires from <= |fs|
    ensures from <= r <= |fs|
    decreases |fs| - from
  {
    if from == |fs| then from else if fs[from] then from else FirstFence(fs, from + 1)
  }

  lemma {:induction false} FirstFenceIsFirst(fs: seq<bool>, from: nat)
    requires from <= |fs|
    ensures var r := FirstFence(fs, from);
      (r < |fs| ==> fs[r]) && forall j :: from <= j < r ==> !fs[j]
    decreases |fs| - from
  {
    if from < |fs| && !fs[from] {
      FirstFenceIsFirst(fs, from + 1);
    }
  }

  /** The index of the closing fence of an opened front matter: the first fence after
      the opening one, or `|lines|` when the front matter is never closed. */
  function ClosingFence(lines: seq<string>): (r: nat)
    requires OpensFrontMatter(lines)
    ensures 1 <= r <= |lines|
  {
    FirstFence(Fences(lines), 1)
  }

  /** The first line the parser reads for tasks: after the closing fence, at the end
      when the front matter never closes, and the first line when there is none. */
  function BodyStart(lines: seq<string>): (r: nat)
    ensures r <= |lines|
  {
    if !OpensFrontMatter(lines) then 0
    else if ClosingFence(lines) < |lines| then ClosingFence(lines) + 1
    else |lines|
  }

  /** The defaults of a closed front matter, read from the lines between the fences. */
  function FrontMatterDefaults(lines: seq<string>): Option<ParsedDefaults> {
    if OpensFrontMatter(lines) && ClosingFence(lines) < |lines| then
      Defaults(Join(lines[1..ClosingFence(lines)], "\n"))
    else None
  }

  /** The status handed to the factory: a non-empty inline status string wins over the
      default status, the winner is normalised, and the checkbox decides when that
      leaves nothing. */
  function StatusFor(attributes: AttributeMap, defaults: Option<ParsedDefaults>, token: char): (r: string)
    ensures
      var inline := if "status" in attributes && attributes["status"].Scalar? && attributes["status"].s != []
                    then Some(attributes["status"].s) else None;
      var chosen := if inline.Some? then inline else if defaults.Some? then defaults.value.status else None;
      (NormalizeStatus(chosen).Some? ==> r == NormalizeStatus(chosen).value)
      && (NormalizeStatus(chosen).None? ==> r == CheckboxTokenToStatus(token))
  {
    var inline := if "status" in attributes && attributes["status"].Scalar? && |attributes["status"].s| > 0
                  then Some(attributes["status"].s) else None;
    var chosen := if inline.Some? then inline else if defaults.Some? then defaults.value.status else None;
    match NormalizeStatus(chosen)
    case Some(status) => status
    case None => CheckboxTokenToStatus(token)
  }

  /** The id handed to the factory: a non-empty inline id, otherwise a generated one. */
  function IdFor(attributes: AttributeMap, generated: Ulid): string {
    if "id" in attributes && attributes["id"].Scalar? && |attributes["id"].s| > 0 then attributes["id"].s
    else generated
  }

  /** What the factory is asked to build from a checkbox line. */
  function FactoryInputFor(m: TaskLineMatch, index: nat, defaults: Option<ParsedDefaults>, filePath: string, generated: Ulid): FactoryInput {
    var attributes := AttributeBlock(m.attributeSource);
    FactoryInput(
      IdFor(attributes, generated), m.title, StatusFor(attributes, defaults, m.token),
      ToTaskAttributesInput(OmitKeys(attributes, {"id", "status"})),
      if defaults.Some? then defaults.value.attributes else None,
      TaskSource(filePath, index, m.column))
  }

  /** One line of the body: nothing unless it is a checkbox line, then the factory's task
      or an issue carrying the factory's error at the checkbox's position. */
  function OutcomeOfLine(line: string, index: nat, defaults: Option<ParsedDefaults>, filePath: string, generated: Ulid,
                         create: Factory): LineOutcome {
    match MatchTaskLine(line)
    case None => Skipped
    case Some(m) =>
      match create(FactoryInputFor(m, index, defaults, filePath, generated))
      case Ok(task) => Produced(task)
      case Err(e) => Reported(ParserIssue(e.message, index, m.column, e))
  }

  /** The outcome of every line: nothing for the lines up to the end of the front
      matter, and for a later line what `OutcomeOfLine` says, with the line's own index
      and generated id. */
  function LineOutcomes(lines: seq<string>, filePath: string, ulidAt: nat -> Ulid, create: Factory): (r: seq<LineOutcome>)
    ensures |r| == |lines|
  {
    var start := BodyStart(lines);
    var defaults := FrontMatterDefaults(lines);
    seq(|lines|, i requires 0 <= i < |lines| => OutcomeAt(lines, i, start, defaults, filePath, ulidAt, create))
  }

  /** The outcome of line `i` when the body starts at `start` and the front matter
      gave `defaults`. */
  function OutcomeAt(lines: seq<string>, i: nat, start: nat, defaults: Option<ParsedDefaults>, filePath: string,
                     ulidAt: nat -> Ulid, create: Factory): LineOutcome
    requires i < |lines|
  {
    if i < start then Skipped else OutcomeOfLine(lines[i], i, defaults, filePath, ulidAt(i), create)
  }

  /** The tasks among the first `n` outcomes, in order. */
  function TasksOf(os: seq<LineOutcome>, n: nat): seq<Task>
    requires n <= |os|
  {
    if n == 0 then [] else TasksOf(os, n - 1) + (if os[n - 1].Produced? then [os[n - 1].task] else [])
  }

  /** The issues among the first `n` outcomes, in order. */
  function IssuesOf(os: seq<LineOutcome>, n: nat): seq<ParserIssue>
    requires n <= |os|
  {
    if n == 0 then [] else IssuesOf(os, n - 1) + (if os[n - 1].Reported? then [os[n - 1].issue] else [])
  }

  lemma OutcomesStep(os: seq<LineOutcome>, i: nat)
    requires i < |os|
    ensures TasksOf(os, i + 1) == TasksOf(os, i) + (if os[i].Produced? then [os[i].task] else [])
    ensures IssuesOf(os, i + 1) == IssuesOf(os, i) + (if os[i].Reported? then [os[i].issue] else [])
  {
  }

  /** `parse`: `ulidAt(i)` is the id generated for line `i` when it has none. */
  function ParseOutput(content: string, filePath: string, ulidAt: nat -> Ulid, create: Factory): ParserOutput {
    var lines := SplitLines(content);
    var os := LineOutcomes(lines, filePath, ulidAt, create);
    ParserOutput(TasksOf(os, |os|), IssuesOf(os, |os|))
  }

  /** The body of the loop of `parse` for a line after the front matter. */
  method ParseLine(line: string, index: nat, defaults: Option<ParsedDefaults>, filePath: string, generated: Ulid,
                   create: Factory)
    returns (o: LineOutcome)
    ensures o == OutcomeOfLine(line, index, defaults, filePath, generated, create)
  {
    var m := MatchTaskLine(line);
    if m.None? {
      return Skipped;
    }
    var attributes := ParseAttributeBlock(m.value.attributeSource);
    var input := FactoryInput(
      IdFor(attributes, generated), m.value.title, StatusFor(attributes, defaults, m.value.token),
      ToTaskAttributesInput(OmitKeys(attributes, {"id", "status"})),
      if defaults.Some? then defaults.value.attributes else None,
      TaskSource(filePath, index, m.value.column));
    var result := create(input);
    match result
    case Ok(task) => return Produced(task);
    case Err(e) => return Reported(ParserIssue(e.message, index, m.value.column, e));
  }


  /** The variables of the loop of `parse`. */
  datatype ScanState = ScanState(
    tasks: seq<Task>, issues: seq<ParserIssue>, frontmatterLines: seq<string>,
    defaults: Option<ParsedDefaults>, insideFrontmatter: bool, frontmatterProcessed: bool)

  const StartScan := ScanState([], [], [], None, false, false)

  /** One turn of the loop of `parse` on line `index`. */
  function ScanLine(st: ScanState, line: string, index: nat, filePath: string, generated: Ulid, create: Factory): ScanState {
    if !st.frontmatterProcessed && index == 0 && IsFence(line) then
      st.(insideFrontmatter := true)
    else if st.insideFrontmatter then
      if IsFence(line) then
        st.(insideFrontmatter := false, frontmatterProcessed := true,
            defaults := Defaults(Join(st.frontmatterLines, "\n")))
      else
        st.(frontmatterLines := st.frontmatterLines + [line])
    else
      match OutcomeOfLine(line, index, st.defaults, filePath, generated, create)
      case Skipped => st
      case Produced(task) => st.(tasks := st.tasks + [task])
      case Reported(issue) => st.(issues := st.issues + [issue])
  }

  /** The loop variables at the end, from `st` before line `i`. */
  function ScanFrom(st: ScanState, lines: seq<string>, i: nat, filePath: string, ulidAt: nat -> Ulid, create: Factory): ScanState
    requires i <= |lines|
    decreases |lines| - i
  {
    if i == |lines| then st
    else ScanFrom(ScanLine(st, lines[i], i, filePath, ulidAt(i), create), lines, i + 1, filePath, ulidAt, create)
  }

  /** What holds of the loop variables after `n` lines, with the front matter given by
      whether it opens, its closing fence, the first body line and its defaults. */
  predicate ScanFacts(lines: seq<string>, os: seq<LineOutcome>, opens: bool, closing: nat, start: nat,
                      fmd: Option<ParsedDefaults>, st: ScanState, n: nat)
    requires n <= |os|
  {
    && (n == 0 ==> !st.insideFrontmatter && !st.frontmatterProcessed && st.frontmatterLines == [])
    && (n < start ==> st.defaults.None?)
    && (opens && 0 < n <= closing ==> st.insideFrontmatter && n <= |lines| && st.frontmatterLines == lines[1..n])
    && (!opens || closing < n ==> !st.insideFrontmatter)
    && (start <= n ==> st.defaults == fmd)
    && st.tasks == TasksOf(os, n)
    && st.issues == IssuesOf(os, n)
  }

  /** The shape of a front matter, stated over the fence flags. */
  predicate FrontMatterShape(lines: seq<string>, fs: seq<bool>, opens: bool, closing: nat, start: nat,
                             fmd: Option<ParsedDefaults>)
  {
    && |fs| == |lines|
    && opens == (|fs| > 0 && fs[0])
    && (opens ==> 1 <= closing <= |fs| && (closing < |fs| ==> fs[closing]) && forall j :: 1 <= j < closing ==> !fs[j])
    && start == (if !opens then 0 else if closing < |fs| then closing + 1 else |fs|)
    && (opens && closing < |lines| ==> fmd == Defaults(Join(lines[1..closing], "\n")))
    && (!(opens && closing < |lines|) ==> fmd == None)
  }

  lemma ScanStep(lines: seq<string>, fs: seq<bool>, os: seq<LineOutcome>, opens: bool, closing: nat, start: nat,
                 fmd: Option<ParsedDefaults>, st: ScanState, n: nat, filePath: string, ulidAt: nat -> Ulid, create: Factory)
    requires FrontMatterShape(lines, fs, opens, closing, start, fmd)
    requires |os| == |lines| && n < |lines|
    requires fs[n] == IsFence(lines[n])
    requires os[n] == OutcomeAt(lines, n, start, fmd, filePath, ulidAt, create)
    requires ScanFacts(lines, os, opens, closing, start, fmd, st, n)
    ensures ScanFacts(lines, os, opens, closing, start, fmd, ScanLine(st, lines[n], n, filePath, ulidAt(n), create), n + 1)
  {
    var st' := ScanLine(st, lines[n], n, filePath, ulidAt(n), create);
    OutcomesStep(os, n);
    if !st.frontmatterProcessed && n == 0 && fs[n] {
      assert st'.frontmatterLines == lines[1..1];
    } else if st.insideFrontmatter {
      if fs[n] {
        assert n == closing;
      } else {
        assert st'.frontmatterLines == lines[1..n + 1];
      }
    } else {
      assert start <= n by {
        if opens && n > 0 {
          assert closing < n;
        }
      }
    }
  }

  /** The definitions of the front matter have the shape `FrontMatterShape` states. */
  lemma FrontMatterShapeOf(lines: seq<string>)
    ensures var opens := OpensFrontMatter(lines);
      FrontMatterShape(lines, Fences(lines), opens, if opens then ClosingFence(lines) else 0,
                       BodyStart(lines), FrontMatterDefaults(lines))
  {
    if OpensFrontMatter(lines) {
      FirstFenceIsFirst(Fences(lines), 1);
    }
  }

  lemma {:induction false} ScanFromFacts(lines: seq<string>, fs: seq<bool>, os: seq<LineOutcome>, opens: bool,
                                         closing: nat, start: nat, fmd: Option<ParsedDefaults>, st: ScanState, i: nat,
                                         filePath: string, ulidAt: nat -> Ulid, create: Factory)
    requires FrontMatterShape(lines, fs, opens, closing, start, fmd)
    requires fs == Fences(lines)
    requires |os| == |lines| && i <= |lines|
    requires forall k {:trigger OutcomeAt(lines, k, start, fmd, filePath, ulidAt, create)} :: 0 <= k < |os| ==>
      os[k] == OutcomeAt(lines, k, start, fmd, filePath, ulidAt, create)
    requires ScanFacts(lines, os, opens, closing, start, fmd, st, i)
    ensures ScanFacts(lines, os, opens, closing, start, fmd, ScanFrom(st, lines, i, filePath, ulidAt, create), |lines|)
    decreases |lines| - i
  {
    if i < |lines| {
      ScanStep(lines, fs, os, opens, closing, start, fmd, st, i, filePath, ulidAt, create);
      ScanFromFacts(lines, fs, os, opens, closing, start, fmd, ScanLine(st, lines[i], i, filePath, ulidAt(i), create),
                    i + 1, filePath, ulidAt, create);
    }
  }

  /** Running the loop of `parse` over all lines gives the tasks and issues of the line
      outcomes. */
  lemma ScanMatchesOutcomes(lines: seq<string>, filePath: string, ulidAt: nat -> Ulid, create: Factory)
    ensures var st := ScanFrom(StartScan, lines, 0, filePath, ulidAt, create);
      var os := LineOutcomes(lines, filePath, ulidAt, create);
      st.tasks == TasksOf(os, |os|) && st.issues == IssuesOf(os, |os|)
  {
    var opens := OpensFrontMatter(lines);
    var closing := if opens then ClosingFence(lines) else 0;
    FrontMatterShapeOf(lines);
    ScanFromFacts(lines, Fences(lines), LineOutcomes(lines, filePath, ulidAt, create), opens, closing,
                  BodyStart(lines), FrontMatterDefaults(lines), StartScan, 0, filePath, ulidAt, create);
  }

  /** One turn of the loop of `parse`: the opening fence on the first line, a line
      of the front matter or its closing fence, or a line of the body. */
  method ReadLine(st: ScanState, line: string, index: nat, filePath: string, generated: Ulid, create: Factory)
    returns (next: ScanState)
    ensures next == ScanLine(st, line, index, filePath, generated, create)
  {
    var trimmed := Trim(line);
    if !st.frontmatterProcessed && index == 0 && trimmed == "---" {
      return st.(insideFrontmatter := true);
    }
    if st.insideFrontmatter {
      if trimmed == "---" {
        var defaults := ParseDefaults(Join(st.frontmatterLines, "\n"));
        return st.(insideFrontmatter := false, frontmatterProcessed := true, defaults := defaults);
      }
      return st.(frontmatterLines := st.frontmatterLines + [line]);
    }
    var o := ParseLine(line, index, st.defaults, filePath, generated, create);
    if o.Produced? {
      return st.(tasks := st.tasks + [o.task]);
    } else if o.Reported? {
      return st.(issues := st.issues + [o.issue]);
    }
    return st;
  }

  /** The loop of `parse` over the lines of the content. */
  method ReadLines(lines: seq<string>, filePath: string, ulidAt: nat -> Ulid, create: Factory) returns (st: ScanState)
    ensures st == ScanFrom(StartScan, lines, 0, filePath, ulidAt, create)
  {
    st := StartScan;
    var lineIndex := 0;
    while lineIndex < |lines|
      invariant lineIndex <= |lines|
      invariant ScanFrom(st, lines, lineIndex, filePath, ulidAt, create) == ScanFrom(StartScan, lines, 0, filePath, ulidAt, create)
    {
      st := ReadLine(st, lines[lineIndex], lineIndex, filePath, ulidAt(lineIndex), create);
      lineIndex := lineIndex + 1;
    }
  }

  /** `parse`: a front matter opened on the first line is collected up to its closing
      fence and read for defaults; every later line is matched, and each checkbox line
      yields a task or an issue. */
  method Parse(content: string, filePath: string, ulidAt: nat -> Ulid, create: Factory) returns (output: ParserOutput)
    ensures output == ParseOutput(content, filePath, ulidAt, create)
  {
    var lines := SplitLines(content);
    var st := ReadLines(lines, filePath, ulidAt, create);
    ScanMatchesOutcomes(lines, filePath, ulidAt, create);
    return ParserOutput(st.tasks, st.issues);
  }
}
