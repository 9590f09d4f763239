/** The one-line task format read back: a line written by the patch engine's
    formatter (src/infrastructure/patch/markdown-patch.service.ts) is recognised by
    the parser (src/infrastructure/parsers/markdown-task-parser.ts), which hands the
    task factory the task's own identifier, title, status and attributes. This holds
    for values the format can carry: non-empty, trimmed, on one line, free of commas
    and square brackets and not opening with a quote, and a title without `{`. */
module TaskLineRoundTrip {
  import opened Wrappers
  import opened Text
  import opened TaskIds
  import opened TaskStatuses
  import opened TaskAttrs
  import opened Tasks
  import opened TaskFactory
  import opened MarkdownParser
  import MarkdownPatch

  // ---------------------------------------------------------------------------
  // What the format can carry

  /** A value written as it stands and read back unchanged. */
  predicate IsPlainValue(v: string) {
    && v != [] && IsTrimmed(v) && NoLineTerminator(v)
    && ',' !in v && '[' !in v && ']' !in v
    && v[0] != '"' && v[0] != '\''
  }

  predicate PlainScalar(v: Option<string>) {
    v.Some? ==> IsPlainValue(v.value)
  }

  /** Every item plain. */
  predicate AllPlain(items: seq<string>) {
    items == [] || (IsPlainValue(items[0]) && AllPlain(items[1..]))
  }

  predicate PlainList(v: Option<seq<string>>) {
    v.Some? ==> v.value != [] && AllPlain(v.value)
  }

  /** A task every field of which survives a write and a read. */
  predicate IsPlainTask(t: Task) {
    && t.title != [] && IsTrimmed(t.title) && NoLineTerminator(t.title) && '{' !in t.title
    && IsPlainValue(t.id)
    && PlainScalar(t.attributes.project) && PlainScalar(t.attributes.assignee) && PlainScalar(t.attributes.due)
    && PlainList(t.attributes.tags) && PlainList(t.attributes.depends)
  }

  /** The attribute input the parser is expected to hand over: each present value
      set, each absent one left out, and nothing at all when every one is absent. */
  function FieldOf<T>(v: Option<T>): Field<T> {
    if v.Some? then Set(v.value) else Unset
  }

  function InputOf(a: TaskAttributes): Option<AttributesInput> {
    var input := AttributesInput(FieldOf(a.project), FieldOf(a.assignee), FieldOf(a.tags), FieldOf(a.due), FieldOf(a.depends));
    if input == NoAttributesInput then None else Some(input)
  }

  // ---------------------------------------------------------------------------
  // Entries of the block

  /** What one entry of the attribute block says: a key and a value. */
  function Rendered(b: Binding): string {
    b.key + ": " + match b.value
      case Scalar(s) => s
      case List(items) => "[" + Join(items, ", ") + "]"
  }

  function RenderAll(bs: seq<Binding>): (r: seq<string>)
    ensures |r| == |bs|
    ensures forall i :: 0 <= i < |bs| ==> r[i] == Rendered(bs[i])
  {
    seq(|bs|, i requires 0 <= i < |bs| => Rendered(bs[i]))
  }

  function ScalarBinding(key: string, v: Option<string>): seq<Binding> {
    if v.Some? && v.value != [] then [Binding(key, Scalar(v.value))] else []
  }

  function ListBinding(key: string, v: Option<seq<string>>): seq<Binding> {
    if v.Some? && |v.value| > 0 then [Binding(key, List(v.value))] else []
  }

  /** The entries the block of a task holds, in the order they are written. */
  function Bindings(t: Task): seq<Binding> {
    [Binding("id", Scalar(t.id))]
    + (if t.status != Todo then [Binding("status", Scalar(t.status.Name()))] else [])
    + ScalarBinding("project", t.attributes.project)
    + ScalarBinding("assignee", t.attributes.assignee)
    + ScalarBinding("due", t.attributes.due)
    + ListBinding("tags", t.attributes.tags)
    + ListBinding("depends", t.attributes.depends)
  }

  /** The formatter writes exactly these entries. */
  lemma PartsAreBindings(t: Task)
    ensures MarkdownPatch.AttributeParts(t) == RenderAll(Bindings(t))
  {
    var a := t.attributes;
    var s := if t.status != Todo then [Binding("status", Scalar(t.status.Name()))] else [];
    RenderAllAppend([Binding("id", Scalar(t.id))], s);
    RenderAllAppend([Binding("id", Scalar(t.id))] + s, ScalarBinding("project", a.project));
    RenderAllAppend([Binding("id", Scalar(t.id))] + s + ScalarBinding("project", a.project), ScalarBinding("assignee", a.assignee));
    RenderAllAppend([Binding("id", Scalar(t.id))] + s + ScalarBinding("project", a.project) + ScalarBinding("assignee", a.assignee),
                    ScalarBinding("due", a.due));
    RenderAllAppend([Binding("id", Scalar(t.id))] + s + ScalarBinding("project", a.project) + ScalarBinding("assignee", a.assignee)
                    + ScalarBinding("due", a.due), ListBinding("tags", a.tags));
    RenderAllAppend([Binding("id", Scalar(t.id))] + s + ScalarBinding("project", a.project) + ScalarBinding("assignee", a.assignee)
                    + ScalarBinding("due", a.due) + ListBinding("tags", a.tags), ListBinding("depends", a.depends));
    assert "id" + ": " == "id: " && "status" + ": " == "status: ";
    assert RenderAll([Binding("id", Scalar(t.id))]) == ["id: " + t.id];
    assert RenderAll(s) == if t.status != Todo then ["status: " + t.status.Name()] else [];
    ScalarPartRendered("project", a.project);
    ScalarPartRendered("assignee", a.assignee);
    ScalarPartRendered("due", a.due);
    ListPartRendered("tags", a.tags);
    ListPartRendered("depends", a.depends);
  }

  lemma ScalarPartRendered(key: string, v: Option<string>)
    ensures RenderAll(ScalarBinding(key, v)) == MarkdownPatch.ScalarPart(key, v)
  {
    if v.Some? && v.value != [] {
      assert RenderAll(ScalarBinding(key, v))[0] == key + ": " + v.value;
    }
  }

  lemma RenderAllAppend(a: seq<Binding>, b: seq<Binding>)
    ensures RenderAll(a + b) == RenderAll(a) + RenderAll(b)
  {
  }

  lemma ListPartRendered(key: string, v: Option<seq<string>>)
    ensures RenderAll(ListBinding(key, v)) == MarkdownPatch.ListPart(key, v)
  {
    if v.Some? && |v.value| > 0 {
      assert key + ": " + ("[" + Join(v.value, ", ") + "]") == key + ": [" + Join(v.value, ", ") + "]";
    }
  }

  // ---------------------------------------------------------------------------
  // Splitting the block back into its entries

  /** Reading characters that hold no bracket, and no comma at the top level, only
      extends the piece being collected. */
  lemma {:induction false} ScanFlat(st: SplitState, s: string)
    requires '[' !in s && ']' !in s && (st.depth == 0 ==> ',' !in s)
    ensures Scan(st, s, ',') == SplitState(st.pieces, st.depth, st.current + s)
    decreases |s|
  {
    if s == [] {
      assert st.current + s == st.current;
    } else {
      var init := s[..|s| - 1];
      assert forall c :: c in init ==> c in s;
      ScanFlat(st, init);
      assert st.current + init + [s[|s| - 1]] == st.current + s;
    }
  }

  /** Text without commas or brackets. */
  predicate Flat(s: string) {
    ',' !in s && '[' !in s && ']' !in s
  }

  /** A piece that, read at the top level, is collected whole: flat text, or flat
      text followed by a bracketed run without brackets inside. */
  predicate Collectable(p: string) {
    Flat(p)
    || (&& |p| >= 2 && p[|p| - 1] == ']' && IndexOf(p, '[').Some?
        && var k := IndexOf(p, '[').value;
        && k < |p| - 1 && Flat(p[..k]) && '[' !in p[k + 1..|p| - 1] && ']' !in p[k + 1..|p| - 1])
  }

  /** Every piece non-empty, trimmed and collected whole. */
  predicate AllPieces(ps: seq<string>) {
    ps == [] || (ps[0] != [] && IsTrimmed(ps[0]) && Collectable(ps[0]) && AllPieces(ps[1..]))
  }

  predicate AllOnOneLine(ps: seq<string>) {
    ps == [] || (NoLineTerminator(ps[0]) && AllOnOneLine(ps[1..]))
  }

  /** Pieces joined by `, ` make non-empty, trimmed text on one line. */
  lemma {:induction false} JoinShape(ps: seq<string>)
    requires |ps| >= 1 && AllPieces(ps) && AllOnOneLine(ps)
    ensures var j := Join(ps, ", "); j != [] && IsTrimmed(j) && NoLineTerminator(j)
  {
    if |ps| > 1 {
      JoinShape(ps[1..]);
      var rest := Join(ps[1..], ", ");
      var j := ps[0] + ", " + rest;
      assert Join(ps, ", ") == j;
      assert j[0] == ps[0][0] && j[|j| - 1] == rest[|rest| - 1];
      assert forall i :: 0 <= i < |j| ==> j[i] in ps[0] || j[i] in ", " || j[i] in rest;
    }
  }

  /** Reading one character is one step. */
  lemma ScanOne(st: SplitState, c: char)
    ensures Scan(st, [c], ',') == SplitStep(st, c, ',')
  {
    assert [c][..0] == [];
  }

  lemma ScanCollectable(st: SplitState, p: string)
    requires st.depth == 0 && Collectable(p)
    ensures Scan(st, p, ',') == SplitState(st.pieces, 0, st.current + p)
  {
    if Flat(p) {
      ScanFlat(st, p);
    } else {
      var k := IndexOf(p, '[').value;
      var head, inside := p[..k], p[k + 1..|p| - 1];
      var tail := "[" + inside + "]";
      assert p == head + tail;
      ScanConcat(st, head, tail, ',');
      ScanFlat(st, head);
      var mid := SplitState(st.pieces, 0, st.current + head);
      assert Scan(st, head, ',') == mid;
      ScanBracketed(mid, inside);
      assert Scan(st, p, ',') == Scan(mid, tail, ',');
      assert mid.current + tail == st.current + p;
    }
  }

  /** A bracketed run without brackets inside is collected whole, commas and all. */
  lemma ScanBracketed(st: SplitState, inside: string)
    requires st.depth == 0 && '[' !in inside && ']' !in inside
    ensures Scan(st, "[" + inside + "]", ',') == SplitState(st.pieces, 0, st.current + ("[" + inside + "]"))
  {
    ScanConcat(st, "[" + inside, "]", ',');
    ScanConcat(st, "[", inside, ',');
    ScanOne(st, '[');
    var st1 := SplitState(st.pieces, 1, st.current + "[");
    ScanFlat(st1, inside);
    var st2 := SplitState(st.pieces, 1, st.current + "[" + inside);
    ScanOne(st2, ']');
    assert st.current + "[" + inside + "]" == st.current + ("[" + inside + "]");
  }

  /** Reading pieces joined by `, ` gives every piece but the last back, trimmed, and
      leaves the last one being collected. */
  lemma {:induction false} ScanJoin(st: SplitState, ps: seq<string>)
    requires st.depth == 0 && AllWhitespace(st.current) && |ps| >= 1
    requires AllPieces(ps)
    ensures Scan(st, Join(ps, ", "), ',') == SplitState(st.pieces + ps[..|ps| - 1], 0, (if |ps| == 1 then st.current else " ") + ps[|ps| - 1])
    decreases |ps|
  {
    if |ps| > 1 {
      JoinFirst(ps);
      ScanHeadSeparator(st, ps[0], Join(ps[1..], ", "));
      assert AllWhitespace(" ");
      ScanJoin(SplitState(st.pieces + [ps[0]], 0, " "), ps[1..]);
      PrefixStep(st.pieces, ps);
    } else {
      ScanCollectable(st, ps[0]);
      assert Join(ps, ", ") == ps[0];
      assert ps[..0] == [];
    }
  }

  /** A first piece and a separator: the piece is pushed, trimmed, and the rest is
      read from a fresh piece holding the space. */
  lemma ScanHeadSeparator(st: SplitState, head: string, rest: string)
    requires st.depth == 0 && AllWhitespace(st.current)
    requires head != [] && IsTrimmed(head) && Collectable(head)
    ensures Scan(st, (head + ", ") + rest, ',') == Scan(SplitState(st.pieces + [head], 0, " "), rest, ',')
  {
    ScanConcat(st, head + ", ", rest, ',');
    ScanConcat(st, head, ", ", ',');
    ScanCollectable(st, head);
    ScanSeparator(SplitState(st.pieces, 0, st.current + head));
    TrimPadded(st.current, head, []);
    assert st.current + head + [] == st.current + head;
  }

  lemma PrefixStep<T>(pre: seq<T>, ps: seq<T>)
    requires |ps| > 1
    ensures ps[1..][|ps| - 2] == ps[|ps| - 1]
    ensures (pre + [ps[0]]) + ps[1..][..|ps| - 2] == pre + ps[..|ps| - 1]
  {
  }

  /** A top-level `, ` ends the piece being collected and starts a new one with the
      space. */
  lemma ScanSeparator(st: SplitState)
    requires st.depth == 0
    ensures Scan(st, ", ", ',') == SplitState(st.pieces + [Trim(st.current)], 0, " ")
  {
    ScanOne(st, ',');
    var st2 := SplitState(st.pieces + [Trim(st.current)], 0, []);
    ScanOne(st2, ' ');
    ScanConcat(st, ",", " ", ',');
    assert ", " == "," + " ";
  }

  lemma JoinFirst(ps: seq<string>)
    requires |ps| > 1
    ensures Join(ps, ", ") == (ps[0] + ", ") + Join(ps[1..], ", ")
  {
  }

  /** Splitting pieces joined by `, ` at the top-level commas gives them back. */
  lemma PiecesOfJoin(ps: seq<string>)
    requires |ps| >= 1
    requires AllPieces(ps)
    ensures TopLevelPieces(Join(ps, ", "), ',') == ps
  {
    ScanJoin(StartState, ps);
    AllPiecesLast(ps);
    var last := ps[|ps| - 1];
    var pad: string := if |ps| == 1 then [] else " ";
    var st := Scan(StartState, Join(ps, ", "), ',');
    assert st.pieces == [] + ps[..|ps| - 1] == ps[..|ps| - 1];
    assert st.current == pad + last;
    TrimPadded(pad, last, []);
    assert pad + last + [] == pad + last;
    assert Trim(st.current) == last;
    SnocLast(ps);
  }

  lemma {:induction false} AllPiecesLast(ps: seq<string>)
    requires |ps| >= 1 && AllPieces(ps)
    ensures ps[|ps| - 1] != [] && IsTrimmed(ps[|ps| - 1])
  {
    if |ps| > 1 {
      AllPiecesLast(ps[1..]);
      assert ps[1..][|ps| - 2] == ps[|ps| - 1];
    }
  }

  lemma SnocLast<T>(s: seq<T>)
    requires s != []
    ensures s[..|s| - 1] + [s[|s| - 1]] == s
  {
  }

  // ---------------------------------------------------------------------------
  // Reading the entries back

  /** A key written as it stands and read back unchanged. */
  predicate IsPlainKey(k: string) {
    k != [] && IsTrimmed(k) && NoLineTerminator(k) && Flat(k) && ':' !in k
  }

  predicate PlainBinding(b: Binding) {
    IsPlainKey(b.key)
    && match b.value
      case Scalar(v) => IsPlainValue(v)
      case List(items) => items != [] && AllPlain(items)
  }

  predicate AllPlainBindings(bs: seq<Binding>) {
    bs == [] || (PlainBinding(bs[0]) && AllPlainBindings(bs[1..]))
  }

  lemma {:induction false} PlainItemsArePieces(items: seq<string>)
    requires AllPlain(items)
    ensures AllPieces(items) && AllOnOneLine(items)
    ensures forall c :: c in Join(items, ", ") ==> c != '[' && c != ']'
  {
    if items != [] {
      PlainItemsArePieces(items[1..]);
      if |items| > 1 {
        assert Join(items, ", ") == items[0] + ", " + Join(items[1..], ", ");
      }
    }
  }

  /** A written entry is one piece of the block. */
  lemma RenderedIsPiece(b: Binding)
    requires PlainBinding(b)
    ensures var p := Rendered(b); p != [] && IsTrimmed(p) && Collectable(p) && NoLineTerminator(p)
  {
    match b.value
    case Scalar(v) =>
      ScalarEntryIsPiece(b.key, v);
      OneLineConcat(b.key, ": ");
      OneLineConcat(b.key + ": ", v);
    case List(items) =>
      PlainItemsArePieces(items);
      if items != [] {
        JoinShape(items);
      }
      var j := Join(items, ", ");
      ListEntryIsPiece(b.key, j);
      OneLineConcat(b.key, ": ");
      OneLineConcat("[", j);
      OneLineConcat("[" + j, "]");
      OneLineConcat(b.key + ": ", "[" + j + "]");
  }

  lemma OneLineConcat(a: string, b: string)
    requires NoLineTerminator(a) && NoLineTerminator(b)
    ensures NoLineTerminator(a + b)
  {
    assert forall i :: 0 <= i < |a + b| ==> (a + b)[i] == if i < |a| then a[i] else b[i - |a|];
  }

  lemma ScalarEntryIsPiece(key: string, v: string)
    requires IsPlainKey(key) && IsPlainValue(v)
    ensures var p := key + ": " + v; p != [] && IsTrimmed(p) && Flat(p)
  {
    var p := key + ": " + v;
    assert p[0] == key[0] && p[|p| - 1] == v[|v| - 1];
  }

  lemma ListEntryIsPiece(key: string, j: string)
    requires IsPlainKey(key) && '[' !in j && ']' !in j
    ensures var p := key + ": " + ("[" + j + "]"); p != [] && IsTrimmed(p) && Collectable(p)
  {
    var p := key + ": " + ("[" + j + "]");
    var k := |key| + 2;
    assert p[0] == key[0] && p[|p| - 1] == ']';
    assert p[..k] == key + ": ";
    assert p[k] == '[';
    IndexOfIs(p, '[', k);
    assert p[k + 1..|p| - 1] == j;
  }

  /** The items of a written list come back as they were. */
  lemma {:induction false} ListItemsOfPlain(items: seq<string>)
    requires AllPlain(items)
    ensures ListItems(items) == items
  {
    if items != [] {
      ListItemsOfPlain(items[1..]);
      TrimOfTrimmed(items[0]);
    }
  }

  /** `key: rest` is read as that key and that value. */
  lemma EntryOf(key: string, rest: string)
    requires IsPlainKey(key) && rest != [] && IsTrimmed(rest)
    ensures ParseEntry(key + ": " + rest) == Some(Entry(key, rest))
  {
    var p := key + ": " + rest;
    assert p[..|key|] == key && p[|key|] == ':';
    IndexOfIs(p, ':', |key|);
    TrimOfTrimmed(key);
    assert p[|key| + 1..] == " " + rest + [];
    TrimPadded(" ", rest, []);
  }

  /** A written entry is read back as the key and the value it was written from. */
  lemma BindRendered(b: Binding)
    requires PlainBinding(b)
    ensures Bind(Rendered(b)) == Some(b)
  {
    match b.value
    case Scalar(v) =>
      EntryOf(b.key, v);
    case List(items) =>
      var rest := "[" + Join(items, ", ") + "]";
      EntryOf(b.key, rest);
      ListValueOf(items);
  }

  lemma ListValueOf(items: seq<string>)
    requires items != [] && AllPlain(items)
    ensures ParseAttributeValue("[" + Join(items, ", ") + "]") == List(items)
  {
    var rest := "[" + Join(items, ", ") + "]";
    PlainItemsArePieces(items);
    PiecesOfJoin(items);
    ListItemsOfPlain(items);
    assert rest[1..|rest| - 1] == Join(items, ", ");
  }

  // ---------------------------------------------------------------------------
  // The map the block gives

  /** The value the last entry with this key gives it, if any. */
  function Lookup(bs: seq<Binding>, k: string): Option<AttrValue> {
    if bs == [] then None
    else if bs[|bs| - 1].key == k then Some(bs[|bs| - 1].value)
    else Lookup(bs[..|bs| - 1], k)
  }

  lemma {:induction false} LookupAppend(a: seq<Binding>, b: seq<Binding>, k: string)
    ensures Lookup(a + b, k) == if Lookup(b, k).Some? then Lookup(b, k) else Lookup(a, k)
    decreases |b|
  {
    if b == [] {
      assert a + b == a;
    } else {
      assert (a + b)[..|a + b| - 1] == a + b[..|b| - 1];
      LookupAppend(a, b[..|b| - 1], k);
    }
  }

  function Somes(bs: seq<Binding>): (r: seq<Option<Binding>>)
    ensures |r| == |bs| && forall i :: 0 <= i < |bs| ==> r[i] == Some(bs[i])
  {
    seq(|bs|, i requires 0 <= i < |bs| => Some(bs[i]))
  }

  /** Building the map from the entries is looking each key up. */
  lemma {:induction false} BuildMapLookup(bs: seq<Binding>, k: string)
    ensures k in BuildMap(Somes(bs)) <==> Lookup(bs, k).Some?
    ensures k in BuildMap(Somes(bs)) ==> BuildMap(Somes(bs))[k] == Lookup(bs, k).value
  {
    if bs != [] {
      var init := bs[..|bs| - 1];
      assert Somes(bs)[..|bs| - 1] == Somes(init);
      BuildMapLookup(init, k);
    }
  }

  /** Each written entry is read back, in order. */
  lemma {:induction false} EntriesReadBack(bs: seq<Binding>)
    requires AllPlainBindings(bs)
    ensures AllPieces(RenderAll(bs)) && AllOnOneLine(RenderAll(bs))
    ensures ParseEntries(RenderAll(bs)) == Somes(bs)
  {
    RenderedArePieces(bs);
    var es := ParseEntries(RenderAll(bs));
    forall i | 0 <= i < |bs| ensures es[i] == Somes(bs)[i] {
      PlainBindingAt(bs, i);
      BindRendered(bs[i]);
    }
  }

  lemma {:induction false} RenderedArePieces(bs: seq<Binding>)
    requires AllPlainBindings(bs)
    ensures AllPieces(RenderAll(bs)) && AllOnOneLine(RenderAll(bs))
  {
    if bs != [] {
      RenderedArePieces(bs[1..]);
      RenderedIsPiece(bs[0]);
      assert RenderAll(bs)[1..] == RenderAll(bs[1..]);
    }
  }

  lemma {:induction false} PlainBindingAt(bs: seq<Binding>, i: nat)
    requires AllPlainBindings(bs) && i < |bs|
    ensures PlainBinding(bs[i])
  {
    if i > 0 {
      PlainBindingAt(bs[1..], i - 1);
    }
  }


  lemma {:induction false} AllPlainBindingsAppend(a: seq<Binding>, b: seq<Binding>)
    requires AllPlainBindings(a) && AllPlainBindings(b)
    ensures AllPlainBindings(a + b)
  {
    if a != [] {
      assert (a + b)[1..] == a[1..] + b;
      AllPlainBindingsAppend(a[1..], b);
    } else {
      assert a + b == b;
    }
  }

  /** A key of lower-case letters is plain. */
  lemma LetterKeyPlain(k: string)
    requires k != [] && forall i :: 0 <= i < |k| ==> 'a' <= k[i] <= 'z'
    ensures IsPlainKey(k)
  {
  }

  lemma PlainKeys()
    ensures IsPlainKey("id") && IsPlainKey("status") && IsPlainKey("project") && IsPlainKey("assignee")
    ensures IsPlainKey("due") && IsPlainKey("tags") && IsPlainKey("depends")
  {
    LetterKeyPlain("id");
    LetterKeyPlain("status");
    LetterKeyPlain("project");
    LetterKeyPlain("assignee");
    LetterKeyPlain("due");
    LetterKeyPlain("tags");
    LetterKeyPlain("depends");
  }

  /** A status name is plain: lower-case letters only. */
  lemma StatusNamePlain(st: TaskStatus)
    ensures IsPlainValue(st.Name())
  {
    var n := st.Name();
    assert forall i :: 0 <= i < |n| ==> n[i] != ',' && n[i] != '[' && n[i] != ']' && !IsLineTerminator(n[i]);
  }

  /** The entries of a plain task are plain. */
  lemma BindingsPlain(t: Task)
    requires IsPlainTask(t)
    ensures AllPlainBindings(Bindings(t))
  {
    PlainKeys();
    StatusNamePlain(t.status);
    var a := t.attributes;
    var b0 := [Binding("id", Scalar(t.id))];
    var b1 := if t.status != Todo then [Binding("status", Scalar(t.status.Name()))] else [];
    var b2 := ScalarBinding("project", a.project);
    var b3 := ScalarBinding("assignee", a.assignee);
    var b4 := ScalarBinding("due", a.due);
    var b5 := ListBinding("tags", a.tags);
    var b6 := ListBinding("depends", a.depends);
    assert AllPlainBindings(b0) && AllPlainBindings(b1) && AllPlainBindings(b2) && AllPlainBindings(b3);
    assert AllPlainBindings(b4) && AllPlainBindings(b5) && AllPlainBindings(b6);
    AllPlainBindingsAppend(b0, b1);
    AllPlainBindingsAppend(b0 + b1, b2);
    AllPlainBindingsAppend(b0 + b1 + b2, b3);
    AllPlainBindingsAppend(b0 + b1 + b2 + b3, b4);
    AllPlainBindingsAppend(b0 + b1 + b2 + b3 + b4, b5);
    AllPlainBindingsAppend(b0 + b1 + b2 + b3 + b4 + b5, b6);
  }

  function Or(later: Option<AttrValue>, earlier: Option<AttrValue>): Option<AttrValue> {
    if later.Some? then later else earlier
  }

  /** Looking a key up in entries written one optional entry after another. */
  lemma LookupChain(b0: seq<Binding>, b1: seq<Binding>, b2: seq<Binding>, b3: seq<Binding>,
                    b4: seq<Binding>, b5: seq<Binding>, b6: seq<Binding>, k: string)
    requires |b1| <= 1 && |b2| <= 1 && |b3| <= 1 && |b4| <= 1 && |b5| <= 1 && |b6| <= 1
    ensures Lookup(b0 + b1 + b2 + b3 + b4 + b5 + b6, k)
      == Or(Lookup(b6, k), Or(Lookup(b5, k), Or(Lookup(b4, k), Or(Lookup(b3, k),
           Or(Lookup(b2, k), Or(Lookup(b1, k), Lookup(b0, k)))))))
  {
    var p1 := b0 + b1;
    LookupAppend(b0, b1, k);
    var p2 := p1 + b2;
    LookupAppend(p1, b2, k);
    var p3 := p2 + b3;
    LookupAppend(p2, b3, k);
    var p4 := p3 + b4;
    LookupAppend(p3, b4, k);
    var p5 := p4 + b5;
    LookupAppend(p4, b5, k);
    LookupAppend(p5, b6, k);
  }

  lemma BindingsChain(t: Task, k: string)
    ensures var a := t.attributes;
      Lookup(Bindings(t), k)
      == Or(Lookup(ListBinding("depends", a.depends), k), Or(Lookup(ListBinding("tags", a.tags), k),
         Or(Lookup(ScalarBinding("due", a.due), k), Or(Lookup(ScalarBinding("assignee", a.assignee), k),
         Or(Lookup(ScalarBinding("project", a.project), k),
         Or(Lookup(if t.status != Todo then [Binding("status", Scalar(t.status.Name()))] else [], k),
            Lookup([Binding("id", Scalar(t.id))], k)))))))
  {
    var a := t.attributes;
    LookupChain([Binding("id", Scalar(t.id))],
      if t.status != Todo then [Binding("status", Scalar(t.status.Name()))] else [],
      ScalarBinding("project", a.project), ScalarBinding("assignee", a.assignee), ScalarBinding("due", a.due),
      ListBinding("tags", a.tags), ListBinding("depends", a.depends), k);
  }

  lemma LookupOne(b: Binding, k: string)
    ensures Lookup([b], k) == if b.key == k then Some(b.value) else None
  {
    assert [b][..0] == [];
  }

  /** Under each key, the block of a plain task holds that field's value, and
      nothing for a field left out. */
  lemma IdLookup(t: Task)
    ensures Lookup(Bindings(t), "id") == Some(Scalar(t.id))
  {
    BindingsChain(t, "id");
    LookupOne(Binding("id", Scalar(t.id)), "id");
    if t.status != Todo { LookupOne(Binding("status", Scalar(t.status.Name())), "id"); }
  }

  lemma StatusLookup(t: Task)
    ensures Lookup(Bindings(t), "status") == if t.status != Todo then Some(Scalar(t.status.Name())) else None
  {
    BindingsChain(t, "status");
    LookupOne(Binding("id", Scalar(t.id)), "status");
    if t.status != Todo { LookupOne(Binding("status", Scalar(t.status.Name())), "status"); }
  }

  lemma ScalarLookup(t: Task, k: string)
    requires k in {"project", "assignee", "due"}
    ensures var v := if k == "project" then t.attributes.project else if k == "assignee" then t.attributes.assignee else t.attributes.due;
      Lookup(Bindings(t), k) == if v.Some? && v.value != [] then Some(Scalar(v.value)) else None
  {
    var a := t.attributes;
    BindingsChain(t, k);
    LookupOne(Binding("id", Scalar(t.id)), k);
    if t.status != Todo { LookupOne(Binding("status", Scalar(t.status.Name())), k); }
    if a.project.Some? && a.project.value != [] { LookupOne(Binding("project", Scalar(a.project.value)), k); }
    if a.assignee.Some? && a.assignee.value != [] { LookupOne(Binding("assignee", Scalar(a.assignee.value)), k); }
    if a.due.Some? && a.due.value != [] { LookupOne(Binding("due", Scalar(a.due.value)), k); }
    if a.tags.Some? && |a.tags.value| > 0 { LookupOne(Binding("tags", List(a.tags.value)), k); }
    if a.depends.Some? && |a.depends.value| > 0 { LookupOne(Binding("depends", List(a.depends.value)), k); }
  }

  lemma ListLookup(t: Task, k: string)
    requires k in {"tags", "depends"}
    ensures var v := if k == "tags" then t.attributes.tags else t.attributes.depends;
      Lookup(Bindings(t), k) == if v.Some? && |v.value| > 0 then Some(List(v.value)) else None
  {
    var a := t.attributes;
    BindingsChain(t, k);
    LookupOne(Binding("id", Scalar(t.id)), k);
    if t.status != Todo { LookupOne(Binding("status", Scalar(t.status.Name())), k); }
    if a.project.Some? && a.project.value != [] { LookupOne(Binding("project", Scalar(a.project.value)), k); }
    if a.assignee.Some? && a.assignee.value != [] { LookupOne(Binding("assignee", Scalar(a.assignee.value)), k); }
    if a.due.Some? && a.due.value != [] { LookupOne(Binding("due", Scalar(a.due.value)), k); }
    if a.tags.Some? && |a.tags.value| > 0 { LookupOne(Binding("tags", List(a.tags.value)), k); }
    if a.depends.Some? && |a.depends.value| > 0 { LookupOne(Binding("depends", List(a.depends.value)), k); }
  }
  // ---------------------------------------------------------------------------
  // The block, the line and the task read back

  /** Braces around non-empty trimmed text make a block whose inside is that text. */
  lemma BlockInnerOf(j: string)
    requires j != [] && IsTrimmed(j)
    ensures BlockInner(Some("{" + j + "}")) == Some(j)
  {
    var raw := "{" + j + "}";
    assert raw[0] == '{' && raw[|raw| - 1] == '}';
    TrimOfTrimmed(raw);
    assert raw[..1] == "{" && raw[|raw| - 1..] == "}";
    assert raw[1..|raw| - 1] == j;
    TrimOfTrimmed(j);
  }

  /** The written block is braced and on one line. */
  lemma BlockOnOneLine(t: Task)
    requires IsPlainTask(t)
    ensures var b := MarkdownPatch.FormatAttributes(t);
      |b| >= 2 && b[0] == '{' && b[|b| - 1] == '}' && NoLineTerminator(b)
  {
    var bs := Bindings(t);
    var ps := RenderAll(bs);
    PartsAreBindings(t);
    BindingsPlain(t);
    EntriesReadBack(bs);
    JoinShape(ps);
    var j := Join(ps, ", ");
    assert "{" + j + "}" == MarkdownPatch.FormatAttributes(t);
    OneLineConcat("{", j);
    OneLineConcat("{" + j, "}");
  }

  /** The written block gives the map of the task's entries. */
  lemma BlockReadBack(t: Task)
    requires IsPlainTask(t)
    ensures AttributeBlock(Some(MarkdownPatch.FormatAttributes(t))) == BuildMap(Somes(Bindings(t)))
  {
    var bs := Bindings(t);
    var ps := RenderAll(bs);
    PartsAreBindings(t);
    BindingsPlain(t);
    EntriesReadBack(bs);
    JoinShape(ps);
    PiecesOfJoin(ps);
    var j := Join(ps, ", ");
    assert "{" + j + "}" == MarkdownPatch.FormatAttributes(t);
    BlockInnerOf(j);
  }

  /** The map of a plain task's entries gives back its identifier and status. */
  lemma IdAndStatusReadBack(t: Task, generated: Ulid)
    requires IsPlainTask(t)
    ensures var m := BuildMap(Somes(Bindings(t)));
      && IdFor(m, generated) == t.id
      && StatusFor(m, None, MarkdownPatch.Checkbox(t.status)[1]) == t.status.Name()
  {
    var bs := Bindings(t);
    IdLookup(t);
    BuildMapLookup(bs, "id");
    StatusLookup(t);
    BuildMapLookup(bs, "status");
    NameIsNormalised(t.status);
  }

  /** The map of a plain task's entries gives back its attributes. */
  lemma AttributesReadBack(t: Task)
    requires IsPlainTask(t)
    ensures ToTaskAttributesInput(OmitKeys(BuildMap(Somes(Bindings(t))), {"id", "status"})) == InputOf(t.attributes)
  {
    var bs := Bindings(t);
    ScalarLookup(t, "project");
    BuildMapLookup(bs, "project");
    ScalarLookup(t, "assignee");
    BuildMapLookup(bs, "assignee");
    ScalarLookup(t, "due");
    BuildMapLookup(bs, "due");
    ListLookup(t, "tags");
    BuildMapLookup(bs, "tags");
    ListLookup(t, "depends");
    BuildMapLookup(bs, "depends");
    OmitIdAndStatusIrrelevant(BuildMap(Somes(bs)));
  }

  /** A title, a space and a braced block split into that title and that block. */
  lemma SplitOf(title: string, block: string)
    requires title != [] && IsTrimmed(title) && '{' !in title
    requires |block| >= 2 && block[0] == '{' && block[|block| - 1] == '}'
    ensures SplitTitleAndAttributes(title + " " + block) == (title, Some(block))
  {
    var src := title + " " + block;
    var b := |title| + 1;
    assert src[..b] == title + " ";
    IndexOfIs(src, '{', b);
    LastIndexOfLast(src, '}');
    TitleBeforeSpace(title);
    var r := SplitTitleAndAttributes(src);
    assert r.0 == Trim(src[..b]);
    assert r.1 == Some(src[b..|src|]);
    assert src[b..|src|] == block;
  }

  lemma LastIndexOfLast(s: string, c: char)
    requires s != [] && s[|s| - 1] == c
    ensures LastIndexOf(s, c) == Some(|s| - 1)
  {
  }

  lemma TitleBeforeSpace(title: string)
    requires title != [] && IsTrimmed(title)
    ensures Trim(title + " ") == title
  {
    assert [] + title + " " == title + " ";
    TrimPadded([], title, " ");
  }

  /** A checkbox line after its indentation is matched with its column. */
  lemma MatchOf(indentation: string, after: string)
    requires AllWhitespace(indentation) && IsCheckbox(after)
    ensures MatchTaskLine(indentation + after)
      == Some(TaskLineMatch(after[3], SplitTitleAndAttributes(TrimStart(after[5..])).0,
                            SplitTitleAndAttributes(TrimStart(after[5..])).1, |indentation| + 2))
  {
    LeadingWhitespaceOf(indentation, after);
    assert (indentation + after)[|indentation|..] == after;
  }

  /** The written line is a checkbox line holding the task's title and block, with
      the checkbox right after the indentation. */
  lemma LineMatches(t: Task, indentation: string)
    requires IsPlainTask(t) && AllWhitespace(indentation)
    ensures MatchTaskLine(MarkdownPatch.FormatTaskLine(t, indentation))
      == Some(TaskLineMatch(MarkdownPatch.Checkbox(t.status)[1], t.title,
                            Some(MarkdownPatch.FormatAttributes(t)), |indentation| + 2))
  {
    var block := MarkdownPatch.FormatAttributes(t);
    BlockOnOneLine(t);
    var cb := MarkdownPatch.Checkbox(t.status);
    var src := t.title + " " + block;
    assert MarkdownPatch.FormatTaskLine(t, indentation) == indentation + ("- " + cb + " " + src);
    OneLineConcat(t.title, " ");
    OneLineConcat(t.title + " ", block);
    CheckboxBefore(cb, src);
    SplitOf(t.title, block);
    MatchOf(indentation, "- " + cb + " " + src);
  }

  /** A bullet, a checkbox and a space before text that starts the line's content. */
  lemma CheckboxBefore(cb: string, src: string)
    requires |cb| == 3 && cb[0] == '[' && cb[1] != ']' && cb[2] == ']'
    requires src != [] && !IsWhitespace(src[0]) && NoLineTerminator(src)
    ensures var after := "- " + cb + " " + src;
      IsCheckbox(after) && after[3] == cb[1] && TrimStart(after[5..]) == src
  {
    var after := "- " + cb + " " + src;
    assert after[5..] == " " + src;
    TrimStartSkips(" ", src);
  }

  /** A trimmed, non-empty tag list survives sanitising unchanged. */
  lemma {:induction false} PlainTagsKept(items: seq<string>)
    requires AllPlain(items)
    ensures TrimmedNonEmpty(items) == items
  {
    if items != [] {
      TrimOfTrimmed(items[0]);
      PlainTagsKept(items[1..]);
    }
  }

  /** The attribute input of a plain, canonical task sanitises back to its attributes. */
  lemma InputSanitizesBack(a: TaskAttributes)
    requires PlainScalar(a.project) && PlainScalar(a.assignee) && PlainScalar(a.due)
    requires PlainList(a.tags) && PlainList(a.depends) && IsCanonical(a)
    ensures SanitizeAttributes(MergeAttributeInputs(None, InputOf(a))) == a
  {
    if a.project.Some? { TrimOfTrimmed(a.project.value); }
    if a.assignee.Some? { TrimOfTrimmed(a.assignee.value); }
    if a.due.Some? { TrimOfTrimmed(a.due.value); }
    if a.tags.Some? { PlainTagsKept(a.tags.value); }
    if a.depends.Some? {
      var ds := a.depends.value;
      forall i | 0 <= i < |ds| ensures SanitizeTaskId(ds[i]) == ds[i] {
        CanonicalIdShape(ds[i]);
        TrimOfTrimmed(ds[i]);
        UpperOfUpper(ds[i]);
      }
      assert SanitizeIds(ds) == ds;
    }
  }

  /** The factory, handed a plain, valid task's own fields, rebuilds that task. */
  lemma FactoryRebuilds(t: Task, source: TaskSource)
    requires IsPlainTask(t) && MatchesIdPattern(t.id) && IsCanonical(t.attributes) && IsValidSource(source)
    ensures Outcome(FactoryInput(t.id, t.title, t.status.Name(), InputOf(t.attributes), None, source))
      == Ok(t.(source := source))
  {
    var input := FactoryInput(t.id, t.title, t.status.Name(), InputOf(t.attributes), None, source);
    ParseCanonicalId(t.id);
    FromNameOfName(t.status);
    NameIsNormalised(t.status);
    TrimOfTrimmed(t.title);
    InputSanitizesBack(t.attributes);
    SchemaKeepsCanonical(t.attributes);
    assert MergedAttributes(input) == Ok(t.attributes);
    assert AllChecksPass(input);
    OutcomeOkIffChecksPass(input);
    FromNameOfName(Outcome(input).value.status);
  }

  /** A valid task written as a line, read back from a file without defaults, is the
      same task, placed where its checkbox is. */
  lemma FormattedLineReadBack(t: Task, indentation: string, index: nat, filePath: string, generated: Ulid)
    requires IsPlainTask(t) && MatchesIdPattern(t.id) && IsCanonical(t.attributes)
    requires AllWhitespace(indentation) && filePath != []
    ensures OutcomeOfLine(MarkdownPatch.FormatTaskLine(t, indentation), index, None, filePath, generated, Outcome)
      == Produced(t.(source := TaskSource(filePath, index, |indentation| + 2)))
  {
    var source := TaskSource(filePath, index, |indentation| + 2);
    LineMatches(t, indentation);
    var m := TaskLineMatch(MarkdownPatch.Checkbox(t.status)[1], t.title,
                           Some(MarkdownPatch.FormatAttributes(t)), |indentation| + 2);
    BlockReadBack(t);
    IdAndStatusReadBack(t, generated);
    AttributesReadBack(t);
    assert FactoryInputFor(m, index, None, filePath, generated)
      == FactoryInput(t.id, t.title, t.status.Name(), InputOf(t.attributes), None, source);
    FactoryRebuilds(t, source);
  }
}
