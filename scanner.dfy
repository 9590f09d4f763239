/** The file scanner's decisions (src/infrastructure/scanner/file-system-task-scanner.ts):
    which include and exclude patterns apply, what a glob pattern matches, which
    files are kept and which directories are entered, and the order of the result. */
module TaskScanner {
  import opened Wrappers
  import opened Text
  import opened TaskOrder
  import opened MarkdownParser

  /** `WorkspaceFolderInput` */
  datatype WorkspaceFolder = WorkspaceFolder(path: string)

  /** `TaskScannerOptions`: either list may be absent. */
  datatype ScannerOptions = ScannerOptions(includes: Option<seq<string>>, excludes: Option<seq<string>>)

  /** `NormalizedOptions`: both lists present and non-empty. */
  datatype NormalizedOptions = NormalizedOptions(includes: seq<string>, excludes: seq<string>)

  const DefaultInclude: seq<string> := ["**/*.md"]
  const DefaultExclude: seq<string> := ["**/node_modules/**", "**/.git/**"]

  // ---------------------------------------------------------------------------
  // Options

  function IncludeOf(options: Option<ScannerOptions>): Option<seq<string>> {
    if options.Some? then options.value.includes else None
  }

  function ExcludeOf(options: Option<ScannerOptions>): Option<seq<string>> {
    if options.Some? then options.value.excludes else None
  }

  /** `a ?? b ?? builtin`, then the built-in list again when the chosen list is
      empty. */
  function ChooseList(call: Option<seq<string>>, configured: Option<seq<string>>, builtin: seq<string>): (r: seq<string>)
    ensures call.Some? && call.value != [] ==> r == call.value
    ensures call.None? && configured.Some? && configured.value != [] ==> r == configured.value
    ensures call.Some? && call.value == [] ==> r == builtin
    ensures call.None? && configured.Some? && configured.value == [] ==> r == builtin
    ensures call.None? && configured.None? ==> r == builtin
  {
    var chosen := if call.Some? then call.value else if configured.Some? then configured.value else builtin;
    if |chosen| > 0 then chosen else builtin
  }

  /** `normalizeOptions`: each list from the call, else from the scanner's own
      defaults, else built in; an empty list falls back to the built-in one. */
  function NormalizeOptions(defaults: ScannerOptions, options: Option<ScannerOptions>): (r: NormalizedOptions)
    ensures r.includes != [] && r.excludes != []
  {
    NormalizedOptions(
      ChooseList(IncludeOf(options), defaults.includes, DefaultInclude),
      ChooseList(ExcludeOf(options), defaults.excludes, DefaultExclude))
  }

  // ---------------------------------------------------------------------------
  // Glob patterns

  /** One piece of a translated glob: `**` followed by `/`, `**`, `*`, `?`, or a
      literal character (every other character is escaped). */
  datatype GlobToken = AnyDirs | AnyText | AnySegment | AnyChar | Literal(c: char)

  /** The translation `globToRegExp` performs, read left to right. */
  function Tokenize(pattern: string): (r: seq<GlobToken>)
    ensures |r| <= |pattern|
    ensures r == [] <==> pattern == []
    decreases |pattern|
  {
    if pattern == [] then []
    else if pattern[0] == '*' then
      if |pattern| >= 2 && pattern[1] == '*' then
        if |pattern| >= 3 && pattern[2] == '/' then [AnyDirs] + Tokenize(pattern[3..])
        else [AnyText] + Tokenize(pattern[2..])
      else [AnySegment] + Tokenize(pattern[1..])
    else if pattern[0] == '?' then [AnyChar] + Tokenize(pattern[1..])
    else [Literal(pattern[0])] + Tokenize(pattern[1..])
  }

  /** The token the translation reads at `index`, and how many characters it takes. */
  function TokenAt(pattern: string, index: nat): (GlobToken, nat)
    requires index < |pattern|
  {
    if pattern[index] == '*' then
      if index + 1 < |pattern| && pattern[index + 1] == '*' then
        if index + 2 < |pattern| && pattern[index + 2] == '/' then (AnyDirs, 3) else (AnyText, 2)
      else (AnySegment, 1)
    else if pattern[index] == '?' then (AnyChar, 1)
    else (Literal(pattern[index]), 1)
  }

  lemma TokenizeAt(pattern: string, index: nat)
    requires index < |pattern|
    ensures index + TokenAt(pattern, index).1 <= |pattern|
    ensures Tokenize(pattern[index..]) == [TokenAt(pattern, index).0] + Tokenize(pattern[index + TokenAt(pattern, index).1..])
  {
    var rest := pattern[index..];
    assert rest[0] == pattern[index];
    var w := TokenAt(pattern, index).1;
    assert rest[w..] == pattern[index + w..];
  }

  /** One turn of the translation loop keeps the loop's invariant. */
  lemma TokenizeStep(pattern: string, index: nat, tokens: seq<GlobToken>)
    requires index < |pattern|
    requires tokens + Tokenize(pattern[index..]) == Tokenize(pattern)
    ensures index + TokenAt(pattern, index).1 <= |pattern|
    ensures (tokens + [TokenAt(pattern, index).0]) + Tokenize(pattern[index + TokenAt(pattern, index).1..]) == Tokenize(pattern)
  {
    TokenizeAt(pattern, index);
  }

  /** `globToRegExp`: the index loop that appends one regular-expression piece per
      glob piece. */
  method GlobToRegExp(pattern: string) returns (tokens: seq<GlobToken>)
    ensures tokens == Tokenize(pattern)
  {
    tokens := [];
    var index := 0;
    assert pattern[0..] == pattern;
    while index < |pattern|
      invariant index <= |pattern|
      invariant tokens + Tokenize(pattern[index..]) == Tokenize(pattern)
      decreases |pattern| - index
    {
      TokenizeStep(pattern, index, tokens);
      if pattern[index] == '*' {
        if index + 1 < |pattern| && pattern[index + 1] == '*' {
          if index + 2 < |pattern| && pattern[index + 2] == '/' {
            tokens := tokens + [AnyDirs];
            index := index + 3;
            continue;
          }
          tokens := tokens + [AnyText];
          index := index + 2;
          continue;
        }
        tokens := tokens + [AnySegment];
        index := index + 1;
        continue;
      }
      if pattern[index] == '?' {
        tokens := tokens + [AnyChar];
        index := index + 1;
        continue;
      }
      tokens := tokens + [Literal(pattern[index])];
      index := index + 1;
    }
  }

  /** Whether the anchored expression `^...$` matches the whole of `s`. `.` refuses
      line terminators; `[^/]` refuses only the slash. */
  function Matches(ts: seq<GlobToken>, s: string): bool
    decreases |ts|, |s|, 1
  {
    if ts == [] then s == []
    else match ts[0]
      case Literal(c) => s != [] && s[0] == c && Matches(ts[1..], s[1..])
      case AnyChar => s != [] && !IsLineTerminator(s[0]) && Matches(ts[1..], s[1..])
      case AnySegment => Matches(ts[1..], s) || (s != [] && s[0] != '/' && Matches(ts, s[1..]))
      case AnyText => Matches(ts[1..], s) || (s != [] && !IsLineTerminator(s[0]) && Matches(ts, s[1..]))
      case AnyDirs => Matches(ts[1..], s) || DirsThen(ts[1..], s)
  }

  /** The optional group for `**` and a slash, followed by the rest: some text without line terminators ending in a
      slash, then the rest of the pattern. */
  function DirsThen(rest: seq<GlobToken>, s: string): bool
    decreases |rest| + 1, |s|, 0
  {
    s != [] && !IsLineTerminator(s[0])
    && ((s[0] == '/' && Matches(rest, s[1..])) || DirsThen(rest, s[1..]))
  }

  /** `*` matches any run of characters without a slash. */
  lemma {:induction false} AnySegmentMeaning(rest: seq<GlobToken>, s: string)
    ensures Matches([AnySegment] + rest, s) <==>
      exists k :: 0 <= k <= |s| && '/' !in s[..k] && Matches(rest, s[k..])
    decreases |s|
  {
    var ts := [AnySegment] + rest;
    assert ts[1..] == rest;
    if Matches(ts, s) {
      if Matches(rest, s) {
        assert s[..0] == [] && s[0..] == s;
      } else {
        AnySegmentMeaning(rest, s[1..]);
        var k :| 0 <= k <= |s[1..]| && '/' !in s[1..][..k] && Matches(rest, s[1..][k..]);
        assert s[..k + 1] == [s[0]] + s[1..][..k];
        assert s[k + 1..] == s[1..][k..];
      }
    }
    if exists k :: 0 <= k <= |s| && '/' !in s[..k] && Matches(rest, s[k..]) {
      var k :| 0 <= k <= |s| && '/' !in s[..k] && Matches(rest, s[k..]);
      if k > 0 {
        assert s[0] == s[..k][0];
        assert s[1..][..k - 1] == s[1..k];
        assert s[1..][k - 1..] == s[k..];
        AnySegmentMeaning(rest, s[1..]);
      } else {
        assert s[0..] == s;
      }
    }
  }

  /** `**` matches any run of characters without a line terminator. */
  lemma {:induction false} AnyTextMeaning(rest: seq<GlobToken>, s: string)
    ensures Matches([AnyText] + rest, s) <==>
      exists k :: 0 <= k <= |s| && NoLineTerminator(s[..k]) && Matches(rest, s[k..])
    decreases |s|
  {
    var ts := [AnyText] + rest;
    assert ts[1..] == rest;
    if Matches(ts, s) {
      if Matches(rest, s) {
        assert s[..0] == [] && s[0..] == s;
      } else {
        AnyTextMeaning(rest, s[1..]);
        var k :| 0 <= k <= |s[1..]| && NoLineTerminator(s[1..][..k]) && Matches(rest, s[1..][k..]);
        assert s[..k + 1] == [s[0]] + s[1..][..k];
        assert s[k + 1..] == s[1..][k..];
      }
    }
    if exists k :: 0 <= k <= |s| && NoLineTerminator(s[..k]) && Matches(rest, s[k..]) {
      var k :| 0 <= k <= |s| && NoLineTerminator(s[..k]) && Matches(rest, s[k..]);
      if k > 0 {
        assert s[0] == s[..k][0];
        assert s[1..][..k - 1] == s[1..k];
        assert s[1..][k - 1..] == s[k..];
        AnyTextMeaning(rest, s[1..]);
      } else {
        assert s[0..] == s;
      }
    }
  }

  /** `**` followed by `/` matches nothing, or any run of characters without a line
      terminator that ends in a slash. */
  lemma {:induction false} AnyDirsMeaning(rest: seq<GlobToken>, s: string)
    ensures Matches([AnyDirs] + rest, s) <==>
      Matches(rest, s) ||
      exists k :: 1 <= k <= |s| && s[k - 1] == '/' && NoLineTerminator(s[..k]) && Matches(rest, s[k..])
  {
    var ts := [AnyDirs] + rest;
    assert ts[1..] == rest;
    DirsThenMeaning(rest, s);
  }

  lemma DirsThenMeaning(rest: seq<GlobToken>, s: string)
    ensures DirsThen(rest, s) <==>
      exists k :: 1 <= k <= |s| && s[k - 1] == '/' && NoLineTerminator(s[..k]) && Matches(rest, s[k..])
  {
    if DirsThen(rest, s) {
      DirsThenWitness(rest, s);
    }
    if exists k :: 1 <= k <= |s| && s[k - 1] == '/' && NoLineTerminator(s[..k]) && Matches(rest, s[k..]) {
      var k :| 1 <= k <= |s| && s[k - 1] == '/' && NoLineTerminator(s[..k]) && Matches(rest, s[k..]);
      DirsThenFromWitness(rest, s, k);
    }
  }

  lemma {:induction false} DirsThenWitness(rest: seq<GlobToken>, s: string)
    requires DirsThen(rest, s)
    ensures exists k :: 1 <= k <= |s| && s[k - 1] == '/' && NoLineTerminator(s[..k]) && Matches(rest, s[k..])
    decreases |s|
  {
    if s[0] == '/' && Matches(rest, s[1..]) {
      assert s[..1] == [s[0]];
      assert s[0] == '/' && NoLineTerminator(s[..1]) && Matches(rest, s[1..]);
    } else {
      DirsThenWitness(rest, s[1..]);
      var k :| 1 <= k <= |s[1..]| && s[1..][k - 1] == '/' && NoLineTerminator(s[1..][..k]) && Matches(rest, s[1..][k..]);
      assert s[..k + 1] == [s[0]] + s[1..][..k];
      assert s[k + 1..] == s[1..][k..];
      assert s[k] == '/' && NoLineTerminator(s[..k + 1]) && Matches(rest, s[k + 1..]);
    }
  }

  lemma {:induction false} DirsThenFromWitness(rest: seq<GlobToken>, s: string, k: nat)
    requires 1 <= k <= |s| && s[k - 1] == '/' && NoLineTerminator(s[..k]) && Matches(rest, s[k..])
    ensures DirsThen(rest, s)
    decreases k
  {
    assert s[0] == s[..k][0];
    if k > 1 {
      assert s[1..][..k - 1] == s[1..k];
      assert s[1..][k - 1..] == s[k..];
      assert s[1..][k - 2] == s[k - 1];
      DirsThenFromWitness(rest, s[1..], k - 1);
    }
  }

  /** A pattern without `*` or `?` matches exactly itself. */
  lemma {:induction false} LiteralPatternMatchesItself(pattern: string, s: string)
    requires '*' !in pattern && '?' !in pattern
    ensures Matches(Tokenize(pattern), s) <==> s == pattern
  {
    if pattern != [] {
      var ts := Tokenize(pattern);
      assert ts == [Literal(pattern[0])] + Tokenize(pattern[1..]);
      assert ts[1..] == Tokenize(pattern[1..]);
      if s != [] {
        LiteralPatternMatchesItself(pattern[1..], s[1..]);
        if s[0] == pattern[0] && s[1..] == pattern[1..] {
          assert s == [s[0]] + s[1..] && pattern == [pattern[0]] + pattern[1..];
        }
      }
    }
  }

  /** The forms of a relative path that are tried: the path itself and, when not
      empty, the path with `./` in front. */
  function Variants(value: string): (r: seq<string>)
    ensures value in r
    ensures value != [] ==> (if StartsWith(value, "./") then value else "./" + value) in r
  {
    if value == [] then [value]
    else [value, if StartsWith(value, "./") then value else "./" + value]
  }

  /** `matches`: some pattern matches some form of the path. */
  predicate MatchesAny(value: string, patterns: seq<seq<GlobToken>>) {
    exists i, j :: 0 <= i < |patterns| && 0 <= j < |Variants(value)| && Matches(patterns[i], Variants(value)[j])
  }

  /** A file is read exactly when an include pattern matches it and no exclude
      pattern does. */
  predicate KeepsFile(path: string, includes: seq<seq<GlobToken>>, excludes: seq<seq<GlobToken>>) {
    MatchesAny(path, includes) && !MatchesAny(path, excludes)
  }

  /** A directory is entered unless an exclude pattern matches its path, with or
      without a trailing slash. */
  predicate EntersDirectory(path: string, excludes: seq<seq<GlobToken>>) {
    !(MatchesAny(path, excludes) || MatchesAny(path + "/", excludes))
  }

  lemma ExtensionPatternTokens(ext: string)
    requires '*' !in ext
    ensures Tokenize("**/*" + ext) == [AnyDirs] + ([AnySegment] + Tokenize(ext))
  {
    var pattern := "**/*" + ext;
    assert pattern[0] == '*' && pattern[1] == '*' && pattern[2] == '/';
    var rest := pattern[3..];
    assert rest == "*" + ext && rest[1..] == ext;
    assert |rest| < 2 || rest[1] != '*' by {
      if |rest| >= 2 {
        assert rest[1] == ext[0];
      }
    }
  }

  lemma NameWithExtensionMatches(name: string, ext: string)
    requires '/' !in name && '*' !in ext && '?' !in ext
    ensures Matches([AnySegment] + Tokenize(ext), name + ext)
  {
    var tail := name + ext;
    LiteralPatternMatchesItself(ext, ext);
    AnySegmentMeaning(Tokenize(ext), tail);
    assert tail[..|name|] == name && tail[|name|..] == ext;
  }

  /** `**` and a slash, `*`, then a literal extension: any file name with that
      extension, below any folder. */
  lemma ExtensionBelowAnyDirsMatches(dir: string, name: string, ext: string)
    requires NoLineTerminator(dir) && (dir == [] || dir[|dir| - 1] == '/')
    requires '/' !in name && '*' !in ext && '?' !in ext
    ensures Matches(Tokenize("**/*" + ext), dir + name + ext)
  {
    ExtensionPatternTokens(ext);
    NameWithExtensionMatches(name, ext);
    BelowAnyDirs(dir, [AnySegment] + Tokenize(ext), name + ext);
    assert dir + name + ext == dir + (name + ext);
  }

  lemma DefaultIncludePattern()
    ensures TokenizeAll(DefaultInclude)[0] == Tokenize("**/*" + ".md")
  {
    assert "**/*.md" == "**/*" + ".md";
  }

  /** With the built-in include list every `.md` file is read, at any depth of
      folders. */
  lemma DefaultIncludeKeepsMarkdown(dir: string, name: string)
    requires NoLineTerminator(dir) && (dir == [] || dir[|dir| - 1] == '/')
    requires '/' !in name
    ensures MatchesAny(dir + name + ".md", TokenizeAll(DefaultInclude))
  {
    var path := dir + name + ".md";
    ExtensionBelowAnyDirsMatches(dir, name, ".md");
    DefaultIncludePattern();
    assert Variants(path)[0] == path;
  }

  lemma LiteralBelowAnyDirsTokens(name: string)
    requires '*' !in name
    ensures Tokenize("**/" + name + "**") == [AnyDirs] + (Tokenize(name) + [AnyText])
  {
    var pattern := "**/" + name + "**";
    assert pattern[3..] == name + "**";
    TokenizeAppend(name, "**");
    assert Tokenize("**") == [AnyText] + Tokenize("**"[2..]);
  }

  /** `**` and a slash, a literal name, then `**`: the name below any folder. */
  lemma LiteralBelowAnyDirsMatches(dir: string, name: string)
    requires NoLineTerminator(dir) && (dir == [] || dir[|dir| - 1] == '/')
    requires '*' !in name && '?' !in name
    ensures Matches(Tokenize("**/" + name + "**"), dir + name)
  {
    LiteralBelowAnyDirsTokens(name);
    var path := dir + name;
    var middle := Tokenize(name);
    LiteralPatternMatchesItself(name, name);
    LiteralTokens(name);
    MatchesLiteralThenAnyText(middle, name);
    BelowAnyDirs(dir, middle + [AnyText], name);
  }

  /** A match below `**` and a slash still matches with any folder path in front. */
  lemma BelowAnyDirs(dir: string, rest: seq<GlobToken>, tail: string)
    requires NoLineTerminator(dir) && (dir == [] || dir[|dir| - 1] == '/')
    requires Matches(rest, tail)
    ensures Matches([AnyDirs] + rest, dir + tail)
  {
    var path := dir + tail;
    AnyDirsMeaning(rest, path);
    if dir == [] {
      assert path == tail;
    } else {
      assert path[..|dir|] == dir && path[|dir|..] == tail;
      assert path[|dir| - 1] == '/';
    }
  }

  lemma DefaultExcludePattern()
    ensures TokenizeAll(DefaultExclude)[0] == Tokenize("**/" + "node_modules/" + "**")
  {
    assert "**/node_modules/**" == "**/" + "node_modules/" + "**";
  }

  /** With the built-in exclude list no `node_modules` folder is entered, at any
      depth: its path with a trailing slash matches. */
  lemma DefaultExcludeSkipsNodeModules(dir: string)
    requires NoLineTerminator(dir) && (dir == [] || dir[|dir| - 1] == '/')
    ensures !EntersDirectory(dir + "node_modules", TokenizeAll(DefaultExclude))
  {
    var path := dir + "node_modules" + "/";
    assert path == dir + "node_modules/";
    LiteralBelowAnyDirsMatches(dir, "node_modules/");
    DefaultExcludePattern();
    assert Variants(path)[0] == path;
  }

  /** A pattern without `*` or `?` translates to literal characters only. */
  lemma {:induction false} LiteralTokens(pattern: string)
    requires '*' !in pattern && '?' !in pattern
    ensures forall i :: 0 <= i < |Tokenize(pattern)| ==> Tokenize(pattern)[i].Literal?
  {
    if pattern != [] {
      LiteralTokens(pattern[1..]);
      assert Tokenize(pattern) == [Literal(pattern[0])] + Tokenize(pattern[1..]);
    }
  }

  /** Tokenising a concatenation whose first half holds no `*`. */
  lemma {:induction false} TokenizeAppend(a: string, b: string)
    requires '*' !in a
    ensures Tokenize(a + b) == Tokenize(a) + Tokenize(b)
  {
    if a != [] {
      assert (a + b)[0] == a[0] && (a + b)[1..] == a[1..] + b;
      TokenizeAppend(a[1..], b);
    } else {
      assert a + b == b;
    }
  }

  /** A pattern that matches `s` still matches it when a trailing `**` is added. */
  lemma {:induction false} MatchesLiteralThenAnyText(ts: seq<GlobToken>, s: string)
    requires Matches(ts, s)
    requires forall i :: 0 <= i < |ts| ==> ts[i].Literal?
    ensures Matches(ts + [AnyText], s)
  {
    if ts == [] {
      assert Matches([AnyText][1..], s);
    } else {
      assert (ts + [AnyText])[0] == ts[0] && (ts + [AnyText])[1..] == ts[1..] + [AnyText];
      MatchesLiteralThenAnyText(ts[1..], s[1..]);
    }
  }

  /** `toPosix`: the platform separator becomes `/`. */
  function ToPosix(value: string, separator: char): string {
    if value == [] then value else Join(Split(value, separator), [ '/' ])
  }

  /** On a platform whose separator is already `/` the path is unchanged. */
  lemma ToPosixOnPosix(value: string)
    ensures ToPosix(value, '/') == value
  {
    if value != [] {
      JoinSplit(value, '/');
    }
  }

  // ---------------------------------------------------------------------------
  // The scan

  /** The folders that are scanned: the resolved path of each folder, first
      occurrence only. */
  function ScannedBases(folders: seq<WorkspaceFolder>, resolve: string -> string, seen: set<string>): seq<string>
    decreases |folders|
  {
    if folders == [] then []
    else
      var base := resolve(folders[0].path);
      if base in seen then ScannedBases(folders[1..], resolve, seen)
      else [base] + ScannedBases(folders[1..], resolve, seen + {base})
  }

  /** No folder is scanned twice, and none that was seen before. */
  lemma {:induction false} ScannedBasesDistinct(folders: seq<WorkspaceFolder>, resolve: string -> string, seen: set<string>)
    ensures var r := ScannedBases(folders, resolve, seen);
      (forall i, j :: 0 <= i < j < |r| ==> r[i] != r[j]) && (forall b :: b in r ==> b !in seen)
    decreases |folders|
  {
    if folders != [] {
      var base := resolve(folders[0].path);
      if base in seen {
        ScannedBasesDistinct(folders[1..], resolve, seen);
      } else {
        var rest := ScannedBases(folders[1..], resolve, seen + {base});
        ScannedBasesDistinct(folders[1..], resolve, seen + {base});
        var r := [base] + rest;
        forall i, j | 0 <= i < j < |r| ensures r[i] != r[j] {
          if i == 0 {
            assert r[j] == rest[j - 1] && rest[j - 1] in rest;
          } else {
            assert r[i] == rest[i - 1] && r[j] == rest[j - 1];
          }
        }
      }
    }
  }

  /** Every folder's resolved path is scanned unless it was scanned before. */
  lemma {:induction false} EveryFolderScanned(folders: seq<WorkspaceFolder>, resolve: string -> string, seen: set<string>)
    ensures forall k :: 0 <= k < |folders| && resolve(folders[k].path) !in seen ==>
      resolve(folders[k].path) in ScannedBases(folders, resolve, seen)
    decreases |folders|
  {
    if folders != [] {
      var base := resolve(folders[0].path);
      EveryFolderScanned(folders[1..], resolve, if base in seen then seen else seen + {base});
      forall k | 0 <= k < |folders| && resolve(folders[k].path) !in seen
        ensures resolve(folders[k].path) in ScannedBases(folders, resolve, seen)
      {
        if k > 0 {
          assert folders[1..][k - 1] == folders[k];
        }
      }
    }
  }

  /** The comparator handed to `sort`: by file path. */
  predicate PathPrecedes(a: ParserInput, b: ParserInput) {
    CompareStrings(a.filePath, b.filePath) <= 0
  }

  lemma PathPrecedesTotal(a: ParserInput, b: ParserInput)
    ensures PathPrecedes(a, b) || PathPrecedes(b, a)
  {
    CompareStringsFlips(a.filePath, b.filePath);
  }

  lemma PathPrecedesTransitive(a: ParserInput, b: ParserInput, c: ParserInput)
    requires PathPrecedes(a, b) && PathPrecedes(b, c)
    ensures PathPrecedes(a, c)
  {
    CompareStringsTransitive(a.filePath, b.filePath, c.filePath);
  }

  predicate FilesSorted(files: seq<ParserInput>) {
    forall i, j :: 0 <= i < j < |files| ==> PathPrecedes(files[i], files[j])
  }

  function InsertFile(f: ParserInput, files: seq<ParserInput>): (r: seq<ParserInput>)
    ensures multiset(r) == multiset(files) + multiset{f}
  {
    if files == [] then [f]
    else if PathPrecedes(f, files[0]) then [f] + files
    else
      assert files == [files[0]] + files[1..];
      [files[0]] + InsertFile(f, files[1..])
  }

  /** A file that precedes the head of a sorted list can be put in front of it. */
  lemma ConsSorted(f: ParserInput, files: seq<ParserInput>)
    requires FilesSorted(files)
    requires files != [] ==> PathPrecedes(f, files[0])
    ensures FilesSorted([f] + files)
  {
    var r := [f] + files;
    forall i, j | 0 <= i < j < |r| ensures PathPrecedes(r[i], r[j]) {
      if i == 0 {
        if j > 1 {
          PathPrecedesTransitive(f, files[0], files[j - 1]);
        }
      } else {
        assert r[i] == files[i - 1] && r[j] == files[j - 1];
      }
    }
  }

  lemma {:induction false} InsertFileSorted(f: ParserInput, files: seq<ParserInput>)
    requires FilesSorted(files)
    ensures FilesSorted(InsertFile(f, files))
  {
    if files == [] {
    } else if PathPrecedes(f, files[0]) {
      ConsSorted(f, files);
    } else {
      PathPrecedesTotal(f, files[0]);
      var tail := files[1..];
      assert FilesSorted(tail) by {
        forall i, j | 0 <= i < j < |tail| ensures PathPrecedes(tail[i], tail[j]) {
          assert tail[i] == files[i + 1] && tail[j] == files[j + 1];
        }
      }
      InsertFileSorted(f, tail);
      var rest := InsertFile(f, tail);
      assert rest[0] == f || rest[0] == files[1];
      ConsSorted(files[0], rest);
    }
  }

  /** The scan result's order: by file path. */
  function SortFiles(files: seq<ParserInput>): (r: seq<ParserInput>)
    ensures multiset(r) == multiset(files)
  {
    if files == [] then []
    else
      assert files == [files[0]] + files[1..];
      InsertFile(files[0], SortFiles(files[1..]))
  }

  lemma {:induction false} SortFilesSorted(files: seq<ParserInput>)
    ensures FilesSorted(SortFiles(files))
  {
    if files != [] {
      SortFilesSorted(files[1..]);
      InsertFileSorted(files[0], SortFiles(files[1..]));
    }
  }

  /** The walk of one folder with the include and exclude matchers. */
  type Walk = (string, seq<seq<GlobToken>>, seq<seq<GlobToken>>) -> seq<ParserInput>

  /** The files collected under each scanned folder, folder by folder. */
  function Collected(bases: seq<string>, collect: Walk, includes: seq<seq<GlobToken>>, excludes: seq<seq<GlobToken>>): seq<ParserInput> {
    if bases == [] then []
    else Collected(bases[..|bases| - 1], collect, includes, excludes) + collect(bases[|bases| - 1], includes, excludes)
  }

  /** `normalized.include.map(globToRegExp)` */
  function TokenizeAll(patterns: seq<string>): (r: seq<seq<GlobToken>>)
    ensures |r| == |patterns|
    ensures forall i :: 0 <= i < |patterns| ==> r[i] == Tokenize(patterns[i])
  {
    if patterns == [] then [] else [Tokenize(patterns[0])] + TokenizeAll(patterns[1..])
  }

  lemma ScannedBasesStep(folders: seq<WorkspaceFolder>, i: nat, resolve: string -> string, seen: set<string>)
    requires i < |folders|
    ensures var base := resolve(folders[i].path);
      ScannedBases(folders[i..], resolve, seen) ==
        if base in seen then ScannedBases(folders[i + 1..], resolve, seen)
        else [base] + ScannedBases(folders[i + 1..], resolve, seen + {base})
  {
    assert folders[i..][0] == folders[i];
    assert folders[i..][1..] == folders[i + 1..];
  }

  /** One turn of the folder loop keeps the folders still to scan in step with the
      ones scanned so far. */
  lemma FolderStep(folders: seq<WorkspaceFolder>, i: nat, resolve: string -> string, seen: set<string>, bases: seq<string>)
    requires i < |folders|
    requires bases + ScannedBases(folders[i..], resolve, seen) == ScannedBases(folders, resolve, {})
    ensures var base := resolve(folders[i].path);
      if base in seen then bases + ScannedBases(folders[i + 1..], resolve, seen) == ScannedBases(folders, resolve, {})
      else (bases + [base]) + ScannedBases(folders[i + 1..], resolve, seen + {base}) == ScannedBases(folders, resolve, {})
  {
    ScannedBasesStep(folders, i, resolve, seen);
    var base := resolve(folders[i].path);
    if base !in seen {
      assert bases + ([base] + ScannedBases(folders[i + 1..], resolve, seen + {base}))
          == (bases + [base]) + ScannedBases(folders[i + 1..], resolve, seen + {base});
    }
  }

  lemma CollectedSnoc(bases: seq<string>, base: string, collect: Walk, includes: seq<seq<GlobToken>>, excludes: seq<seq<GlobToken>>)
    ensures Collected(bases + [base], collect, includes, excludes) == Collected(bases, collect, includes, excludes) + collect(base, includes, excludes)
  {
    assert (bases + [base])[..|bases|] == bases;
  }

  /** What a scan returns: the walks of the distinct resolved folders with the
      normalised matchers, in path order. */
  function ScanResult(defaults: ScannerOptions, folders: seq<WorkspaceFolder>, options: Option<ScannerOptions>,
                      resolve: string -> string, collect: Walk): seq<ParserInput>
  {
    var normalized := NormalizeOptions(defaults, options);
    SortFiles(Collected(ScannedBases(folders, resolve, {}), collect,
                        TokenizeAll(normalized.includes), TokenizeAll(normalized.excludes)))
  }

  /** `scan`: each distinct resolved folder is walked once with the normalised
      matchers (the walk is the `collect` parameter), and the files are returned in
      path order. */
  method Scan(defaults: ScannerOptions, folders: seq<WorkspaceFolder>, options: Option<ScannerOptions>,
              resolve: string -> string, collect: Walk)
    returns (results: seq<ParserInput>)
    ensures results == ScanResult(defaults, folders, options, resolve, collect)
    ensures FilesSorted(results)
  {
    var normalized := NormalizeOptions(defaults, options);
    var includeMatchers := TokenizeAll(normalized.includes);
    var excludeMatchers := TokenizeAll(normalized.excludes);
    var gathered := CollectFolders(folders, resolve, collect, includeMatchers, excludeMatchers);
    results := SortFiles(gathered);
    SortFilesSorted(gathered);
  }

  /** The folder loop of `scan`: a folder whose resolved path was seen before is
      skipped, any other is walked and its files appended. */
  method CollectFolders(folders: seq<WorkspaceFolder>, resolve: string -> string, collect: Walk,
                        includeMatchers: seq<seq<GlobToken>>, excludeMatchers: seq<seq<GlobToken>>)
    returns (gathered: seq<ParserInput>)
    ensures gathered == Collected(ScannedBases(folders, resolve, {}), collect, includeMatchers, excludeMatchers)
  {
    gathered := [];
    var seen: set<string> := {};
    ghost var bases: seq<string> := [];
    for i := 0 to |folders|
      invariant bases + ScannedBases(folders[i..], resolve, seen) == ScannedBases(folders, resolve, {})
      invariant gathered == Collected(bases, collect, includeMatchers, excludeMatchers)
    {
      var basePath := resolve(folders[i].path);
      FolderStep(folders, i, resolve, seen, bases);
      if basePath !in seen {
        CollectedSnoc(bases, basePath, collect, includeMatchers, excludeMatchers);
        seen := seen + {basePath};
        bases := bases + [basePath];
        gathered := gathered + collect(basePath, includeMatchers, excludeMatchers);
      }
    }
    assert folders[|folders|..] == [];
    assert bases + [] == bases;
  }
}
