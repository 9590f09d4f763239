# md-planner core, modelled in Dafny

md-planner is a VS Code extension that treats markdown checkbox lines as tasks:

```
- [ ] Write the report {id: T-ABC123, status: doing, assignee: kim, due: 2025-03-01, tags: [docs]}
```

This project models its core and proves properties of the model. The core covers:

- **Value objects**: task identifiers, statuses, due dates and the attribute bag. Each has its validation rules and error messages.
- **Task factory**: builds a task from raw fields and reports one issue per bad field.
- **Markdown task parser**: handles front matter with defaults, checkbox lines and the inline `{key: value}` attribute block.
- **Patch engine**: inserts, rewrites or deletes a task's line in a file. It works over an in-memory file system.
- **In-memory task index**: keeps two maps, by id and by file, in lockstep, and lists tasks sorted by file, line and column.
- **Scanner's option and glob logic.**
- **Settings reader.**
- **Index-building use case and the service around it.**
- **Create, update and delete use cases.**
- **Board helpers**: turn the index into columns of cards and turn webview payloads into use-case inputs.

Modules follow the source tree:

| Module | Source |
|---|---|
| `TaskIds`, `TaskStatuses`, `DueDates`, `TaskAttrs`, `Tasks` | `src/domain` |
| `Validation` | `src/shared/validation/zod.ts` |
| `TaskFactory` | `src/domain/services` |
| `MarkdownParser` | `src/infrastructure/parsers` |
| `FileSystems`, `MarkdownPatch` | `src/infrastructure/patch` |
| `TaskLineRoundTrip` | `src/infrastructure/patch` read back by `src/infrastructure/parsers` |
| `TaskOrder`, `TaskIndex` | `src/infrastructure/index` |
| `TaskScanner` | `src/infrastructure/scanner` |
| `ExtensionSettings` | `src/infrastructure/settings` |
| `BuildIndex`, `TaskUseCases` | `src/application` |
| `Board` | `src/interface/webview` |

`Wrappers`, `Text`, `Seqs` and `Js` are shared helpers:

- `Text` covers JavaScript's `trim`, `split` and `join`, and ASCII case mapping.
- `Js` covers the untyped values that arrive from YAML, settings and webview messages.

Stateful parts are classes whose methods are proved against specification functions:

- the in-memory file system and the patch service;
- the task index;
- the index service.

Loops in the source are methods with loop invariants. Examples are the parser's line loop, the glob translation, the scan's folder loop and the build loop. Pure helpers are functions with lemmas.

## Model

| member | source | states |
|---|---|---|
| Text.Trim | src/domain/value-objects/task-id.ts:14-16 | `trim` leaves a string with no whitespace at either end, no longer than its input |
| Text.TrimShape | src/domain/value-objects/due-date.ts:35-37 | the trimmed string is a middle slice of the input with only whitespace cut on each side |
| Text.TrimKeepsCharacters | src/domain/value-objects/due-date.ts:35-37 | trimming introduces no character |
| Text.TrimOfTrimmed | src/domain/value-objects/due-date.ts:35-37 | a string without outer whitespace is left unchanged by `trim` |
| Text.TrimIdempotent | src/domain/value-objects/due-date.ts:35-37 | trimming twice is trimming once |
| Text.TrimPadded | src/domain/value-objects/task-id.ts:14-16 | whitespace padding around a trimmed word is exactly what `trim` removes |
| Text.LeadingWhitespace | src/infrastructure/parsers/markdown-task-parser.ts:25 | the indentation read from a line is its longest whitespace prefix |
| Text.Upper | src/domain/value-objects/task-id.ts:14-16 | `toUpperCase` maps each character on its own and keeps the length |
| Text.Lower | src/domain/value-objects/task-status.ts:13-18 | `toLowerCase` maps each character on its own and keeps the length |
| Text.LowerOfLowerCase | src/domain/value-objects/task-status.ts:13-18 | lower-casing a string without upper-case letters changes nothing |
| Text.LowerKeepsTrimmed | src/domain/value-objects/task-status.ts:13-18 | lower-casing keeps a trimmed string trimmed |
| Text.UpperOfUpper | src/domain/value-objects/task-id.ts:14-16 | upper-casing a string without lower-case letters changes nothing |
| Text.IndexOf | src/infrastructure/parsers/markdown-task-parser.ts:148 | the first position of a character, or none when it does not occur |
| Text.LastIndexOf | src/infrastructure/parsers/markdown-task-parser.ts:153 | the last position of a character, or none when it does not occur |
| Text.Split | src/infrastructure/patch/markdown-patch.service.ts:46 | `split` returns at least one piece |
| Text.SplitPiecesLackSeparator | src/infrastructure/patch/markdown-patch.service.ts:46 | no piece of a split holds the separator |
| Text.JoinSplit | src/infrastructure/patch/markdown-patch.service.ts:46-59 | joining the pieces of a split with the separator gives the text back |
| Text.SplitJoin | src/infrastructure/patch/markdown-patch.service.ts:46-59 | splitting a join of separator-free lines gives the lines back |
| Text.SplitLines | src/infrastructure/parsers/markdown-task-parser.ts:34 | splitting on `\r?\n` gives one line per line-feed piece, each without a line feed: every piece but the last loses the one carriage return that ended it (`DropCarriageReturn`), the last is kept as it is |
| Text.SplitLinesCrLf | src/infrastructure/parsers/markdown-task-parser.ts:34 | lines without line feeds, joined with `\r\n`, split back into exactly those lines |
| Text.NatToString | src/domain/entities/task-attributes.ts:16 | an array index in an issue path is written as a non-empty run of decimal digits |
| Seqs.Dedup | src/domain/entities/task-attributes.ts:20-23 | `Array.from(new Set(xs))` has no duplicates and holds exactly the values of `xs` |
| Seqs.DedupKeepsFirstOccurrenceOrder | src/domain/entities/task-attributes.ts:20-23 | the deduplicated values appear in the order of their first occurrence |
| Seqs.DedupOfDistinct | src/domain/entities/task-attributes.ts:20-23 | deduplicating a list without duplicates changes nothing |
| Seqs.DedupIdempotent | src/domain/entities/task-attributes.ts:20-23 | deduplicating twice is deduplicating once |
| Js.StringsOfMembers | src/infrastructure/settings/extension-settings.service.ts:39 | filtering with `typeof value === "string"` keeps exactly the string entries |
| Js.StringsOfAppend | src/infrastructure/settings/extension-settings.service.ts:39 | the filter keeps the order of the entries |
| Validation.ParseWithSchema | src/shared/validation/zod.ts:9-26 | success exactly when the schema accepts, with the schema's data; otherwise `<subject> is invalid` (default subject `input`) with the schema's issues |
| Validation.FormatError | src/shared/validation/zod.ts:28-36 | the message alone without issues; otherwise the message, `: `, the first issue's path when non-empty, and the first issue's message |
| Validation.FormattedRejectionNamesSubject | src/shared/validation/zod.ts:9-36 | a formatted rejection starts with `<subject> is invalid` |
| TaskStatuses.TaskStatus.Name | src/domain/value-objects/task-status.ts:6 | every status name is a lower-case word of at least four letters |
| TaskStatuses.FromName | src/domain/value-objects/task-status.ts:8 | the enum lookup finds the status with exactly the given name, and none when no status has it |
| TaskStatuses.FromNameOfName | src/domain/value-objects/task-status.ts:6-8 | looking up a status's name gives the status back |
| TaskStatuses.TaskStatusSchema | src/domain/value-objects/task-status.ts:8 | the enum schema accepts exactly the strings that are status names |
| TaskStatuses.ParseTaskStatus | src/domain/value-objects/task-status.ts:13-18 | a string is accepted exactly when its trimmed lower-cased form is a status name, and that status is returned; other values are refused as `TaskStatus is invalid` |
| TaskStatuses.NameIsNormalised | src/domain/value-objects/task-status.ts:13-18 | a status name survives trimming and lower-casing unchanged |
| TaskStatuses.GuardImpliesParse | src/domain/value-objects/task-status.ts:13-22 | whatever the guard accepts, the parser accepts as the same status |
| TaskStatuses.ParseForgivesCaseAndPadding | src/domain/value-objects/task-status.ts:13-18 | `" DONE "` parses as done |
| TaskStatuses.GuardIsExact | src/domain/value-objects/task-status.ts:13-22 | the guard refuses `"DONE"` and accepts `"done"`; the parser refuses non-strings |
| TaskStatuses.StatusOrderIsPermutation | src/domain/value-objects/task-status.ts:24-30 | the default order lists every status exactly once |
| TaskIds.CanonicalIdShape | src/domain/value-objects/task-id.ts:9-12 | an identifier matching either pattern has 6 to 32 characters, no lower-case letter, no padding, and only letters, digits and dashes |
| TaskIds.TaskIdSchema | src/domain/value-objects/task-id.ts:18-31 | the schema accepts exactly the strings whose upper-cased form matches a pattern, and returns that form |
| TaskIds.SanitizeTaskId | src/domain/value-objects/task-id.ts:14-16 | a sanitized identifier is trimmed, holds no lower-case ASCII letter and is no longer than its input |
| TaskIds.ParseTaskId | src/domain/value-objects/task-id.ts:35-38 | accepted exactly when the trimmed upper-cased string matches a pattern, which is then the identifier; otherwise `TaskId is invalid` with issues |
| TaskIds.IsTaskIdAgreesWithParse | src/domain/value-objects/task-id.ts:35-46 | the type guard and the parser agree on every value |
| TaskIds.ParseCanonicalId | src/domain/value-objects/task-id.ts:35-38 | a stored identifier parses to itself |
| TaskIds.ParseTaskIdIdempotent | src/domain/value-objects/task-id.ts:35-38 | a parsed identifier parses to itself |
| TaskIds.LegacyIdFromParts | src/domain/value-objects/task-id.ts:9-10 | a letter, a dash and 4 to 30 upper-case letters or digits form an identifier |
| TaskIds.SanitizePadded | src/domain/value-objects/task-id.ts:14-16 | sanitizing strips padding and upper-cases the rest |
| TaskIds.ParseNormalisesExample | src/domain/value-objects/task-id.spec.ts:6-13 | `" t-abc12 "` parses as `T-ABC12` |
| TaskIds.GuardAcceptsExample | src/domain/value-objects/task-id.spec.ts:24-28 | the guard accepts `T-12345` |
| TaskIds.ParseLowerCaseExample | src/domain/value-objects/task-id.spec.ts:6-13 | `t-abc12` parses as `T-ABC12` |
| TaskIds.GuardRefusesExample | src/domain/value-objects/task-id.spec.ts:24-28 | the guard refuses `not-id` and non-strings |
| TaskIds.GeneratedUlidIsTaskId | src/domain/value-objects/task-id.ts:11-12 | a ULID matches the identifier patterns and parses to itself |
| DueDates.DaysInMonth | src/domain/value-objects/due-date.ts:29-32 | every month has 28 to 31 days |
| DueDates.ValidCalendarDateMeans | src/domain/value-objects/due-date.ts:12-33 | the `Date.UTC` round trip accepts exactly a `YYYY-MM-DD` day of the Gregorian calendar in a year from 100 on |
| DueDates.DueDateSchema | src/domain/value-objects/due-date.ts:39-48 | the schema accepts exactly the real calendar dates, unchanged, and reports at least one issue otherwise |
| DueDates.ParseDueDate | src/domain/value-objects/due-date.ts:54-57 | accepted exactly when the trimmed text is a real calendar date, which is then the due date; otherwise `DueDate is invalid` |
| DueDates.IsDueDate | src/domain/value-objects/due-date.ts:59-65 | `isDueDate` holds exactly for strings whose trimmed text is a real calendar date |
| DueDates.EnsureDueDate | src/domain/value-objects/due-date.ts:67-74 | a non-string is refused with its own message; a string succeeds exactly when `isDueDate` holds, with its trimmed text |
| DueDates.FormatDueDate | src/domain/value-objects/due-date.ts:76-78 | a due date is written unchanged, and what is written parses back to it |
| DueDates.ParseStoredDueDate | src/domain/value-objects/due-date.ts:54-57 | a stored due date has no padding and parses to itself |
| DueDates.ParseDueDateIdempotent | src/domain/value-objects/due-date.ts:54-57 | parsing a parsed due date gives it back |
| DueDates.LeapDayExamples | src/domain/value-objects/due-date.ts:12-33 | leap days only in leap years (2000 yes, 1900 no), month 13 refused, years before 100 refused |
| TaskAttrs.Spread | src/interface/webview/board-view-panel.ts:513-516 | in `{...base, ...over}` a key present in `over` wins, even with no value |
| TaskAttrs.TrimmedNonEmpty | src/domain/entities/task-attributes.ts:48 | the kept tags are trimmed and non-blank, never more than were given; a single tag gives its trim unless that is blank |
| TaskAttrs.TrimmedNonEmptyKeeps | src/domain/entities/task-attributes.ts:48 | no non-blank tag is lost |
| TaskAttrs.TrimmedNonEmptyAppend | src/domain/entities/task-attributes.ts:48 | the kept tags of two lists are those of the first followed by those of the second, so the input order is kept |
| TaskAttrs.TrimmedNonEmptyFrom | src/domain/entities/task-attributes.ts:48 | every kept tag is the trim of an input tag |
| TaskAttrs.SanitizeIds | src/domain/entities/task-attributes.ts:49 | each dependency is sanitized like a task id, in place |
| TaskAttrs.SanitizeAttributes | src/domain/entities/task-attributes.ts:47-59 | project and assignee trimmed when strings; tags are the kept trimmed tags, absent when none is left; due is the trimmed string exactly when that is non-blank; depends are the sanitized ids exactly when the list is non-empty |
| TaskAttrs.TagIssuesEmpty | src/domain/entities/task-attributes.ts:16 | the tag list passes exactly when no tag is empty |
| TaskAttrs.DependsIssuesEmpty | src/domain/entities/task-attributes.ts:18 | the dependency list passes exactly when every entry is a valid task id |
| TaskAttrs.UpperAll | src/domain/value-objects/task-id.ts:31 | every dependency is upper-cased by the id schema's transform |
| TaskAttrs.AttributesSchema | src/domain/entities/task-attributes.ts:12-24 | accepted exactly when every present key passes its schema; the output has upper-cased, duplicate-free dependencies and duplicate-free tags |
| TaskAttrs.SchemaOutputCanonical | src/domain/entities/task-attributes.ts:12-24 | what the schema returns is canonical |
| TaskAttrs.SchemaKeepsCanonical | src/domain/entities/task-attributes.ts:12-24 | canonical attributes pass the schema unchanged |
| TaskAttrs.ParseTaskAttributes | src/domain/entities/task-attributes.ts:61-73 | no input gives empty attributes; otherwise success exactly when the sanitized input passes the schema, with the schema's output of the sanitized input; failure reads `TaskAttributes is invalid` |
| TaskAttrs.ParsedAttributesCanonical | src/domain/entities/task-attributes.ts:61-73 | parsed attributes are canonical |
| TaskAttrs.BlankProjectRejected | src/domain/entities/task-attributes.ts:53-54 | a blank project is not dropped by sanitizing; validation rejects it |
| TaskAttrs.ParsedTagsAreTheInputTags | src/domain/entities/task-attributes.ts:48-52 | every non-blank input tag is among the parsed tags, trimmed |
| Tasks.TitleSchema | src/domain/entities/task.ts:9 | a title is accepted exactly when it is non-empty, unchanged |
| Tasks.SourceSchema | src/domain/entities/task.ts:13-17 | a source is accepted exactly when the path is non-empty and line and column are not negative |
| Tasks.TaskSchema | src/domain/entities/task.ts:33-39 | accepted exactly when the upper-cased id matches a pattern, the title is non-empty, the attributes pass their schema and the source is valid; the accepted task has the upper-cased id and the schema's attributes and keeps title, status and source |
| Tasks.SchemaOutputValid | src/domain/entities/task.ts:33-39 | an accepted task is valid, and its tags and dependencies hold no repeats |
| Tasks.ValidTaskPassesSchema | src/domain/entities/task.ts:33-39 | a task in canonical form passes the task schema unchanged |
| MarkdownParser.SplitTitleAndAttributes | src/infrastructure/parsers/markdown-task-parser.ts:144-159 | without `{` the whole text, trimmed, is the title and there is no block; otherwise the title is the trimmed text before the first `{` and the block runs from it to the last `}`, to the end of the text when there is no `}`, and is empty when the last `}` comes before the first `{` |
| MarkdownParser.MatchTaskLine | src/infrastructure/parsers/markdown-task-parser.ts:125-142 | a line matches exactly when the checkbox shape (`IsCheckbox`) follows its leading whitespace; the column is that whitespace's width plus two, the token is the character in the brackets and never `]`, the title is trimmed |
| MarkdownParser.CheckboxTokenToStatus | src/infrastructure/parsers/markdown-task-parser.ts:117-123 | the token gives `done` exactly for `x`, `X` and `*`, and `todo` otherwise |
| MarkdownParser.NormalizeStatus | src/infrastructure/parsers/markdown-task-parser.ts:250-259 | nothing exactly for a missing or blank value; otherwise the trimmed value without upper-case letters, of the same length |
| MarkdownParser.NormalizeStatusIdempotent | src/infrastructure/parsers/markdown-task-parser.ts:250-259 | normalising twice is normalising once |
| MarkdownParser.StripWrappingQuotes | src/infrastructure/parsers/markdown-task-parser.ts:240-248 | one pair of matching double or single quotes is removed; a value not starting with a quote is kept |
| MarkdownParser.ScanKeepsPieces | src/infrastructure/parsers/markdown-task-parser.ts:215-231 | reading more input only appends pieces, each trimmed |
| MarkdownParser.TopLevelPiecesTrimmed | src/infrastructure/parsers/markdown-task-parser.ts:210-238 | every piece of a top-level split is trimmed |
| MarkdownParser.ScanConcat | src/infrastructure/parsers/markdown-task-parser.ts:215-231 | reading two texts in turn is reading their concatenation |
| MarkdownParser.SplitTopLevel | src/infrastructure/parsers/markdown-task-parser.ts:210-238 | the loop returns the pieces between separators outside brackets, plus a non-blank rest |
| MarkdownParser.ListItems | src/infrastructure/parsers/markdown-task-parser.ts:202-204 | list items are never blank, never more than the pieces; one piece gives its trimmed, unquoted text unless that is blank |
| MarkdownParser.ListItemsAppend | src/infrastructure/parsers/markdown-task-parser.ts:202-204 | the items of two lists of pieces are those of the first followed by those of the second, so the order is kept |
| MarkdownParser.ListItemsFrom | src/infrastructure/parsers/markdown-task-parser.ts:202-204 | every item is the trimmed, unquoted text of some piece |
| MarkdownParser.ListItemsKeep | src/infrastructure/parsers/markdown-task-parser.ts:202-204 | a piece whose trimmed, unquoted text is non-blank gives an item |
| MarkdownParser.ParseAttributeValue | src/infrastructure/parsers/markdown-task-parser.ts:200-208 | a bracketed value is the list of its top-level items; anything else is the value without wrapping quotes |
| MarkdownParser.ParseEntry | src/infrastructure/parsers/markdown-task-parser.ts:182-192 | an entry counts exactly when it has a colon with a non-blank key before it; the key is the trimmed text before the first colon and the value the trimmed text after it |
| MarkdownParser.ParseEntries | src/infrastructure/parsers/markdown-task-parser.ts:181-195 | every entry is read on its own |
| MarkdownParser.BuildMapKeys | src/infrastructure/parsers/markdown-task-parser.ts:181-195 | a key is in the attribute map exactly when some entry names it |
| MarkdownParser.LastEntryWins | src/infrastructure/parsers/markdown-task-parser.ts:194 | a key holds the value of the last entry naming it |
| MarkdownParser.BlockInner | src/infrastructure/parsers/markdown-task-parser.ts:163-176 | the inside of a block is non-empty and trimmed when there is one |
| MarkdownParser.CollectEntries | src/infrastructure/parsers/markdown-task-parser.ts:181-195 | the loop builds the map of the parsed entries, later keys replacing earlier ones |
| MarkdownParser.ParseAttributeBlock | src/infrastructure/parsers/markdown-task-parser.ts:163-198 | the block parses to the map of its top-level entries, or to nothing when missing, unbraced or empty |
| MarkdownParser.OmitKeys | src/infrastructure/parsers/markdown-task-parser.ts:261-273 | exactly the keys not omitted remain, with their values |
| MarkdownParser.ToTaskAttributesInput | src/infrastructure/parsers/markdown-task-parser.ts:275-301 | no input exactly when no attribute key has a usable value; values are never null; tags come from a non-empty list |
| MarkdownParser.OmitIdAndStatusIrrelevant | src/infrastructure/parsers/markdown-task-parser.ts:71-72 | omitting `id` and `status` does not change the attribute input |
| MarkdownParser.ClassifyDefaultsLines | src/infrastructure/parsers/markdown-task-parser.ts:317-348 | every line is classified |
| MarkdownParser.IndentedPrefixIsLongest | src/infrastructure/parsers/markdown-task-parser.ts:325-327 | the section runs over indented lines and stops at the first line not indented by two spaces |
| MarkdownParser.DefaultsSectionAfterFirstHeader | src/infrastructure/parsers/markdown-task-parser.ts:317-327 | `DefaultsSection`: no section without a `defaults:` line; otherwise the indented run right after the first one |
| MarkdownParser.Defaults | src/infrastructure/parsers/markdown-task-parser.ts:307-360 | defaults are absent unless attributes or a status were found |
| MarkdownParser.ReadStatusIsNormal | src/infrastructure/parsers/markdown-task-parser.ts:342-345 | a status line holds a normalised status |
| MarkdownParser.SectionLinesComeFromInput | src/infrastructure/parsers/markdown-task-parser.ts:317-327 | section lines are lines of the input |
| MarkdownParser.FoldStatusIsNormal | src/infrastructure/parsers/markdown-task-parser.ts:342-345 | `FoldDefaults` over a section of normalised statuses ends with a normalised status |
| MarkdownParser.SectionStatusIsNormal | src/infrastructure/parsers/markdown-task-parser.ts:317-348 | the status collected from the section is normalised |
| MarkdownParser.DefaultsStatusIsNormalised | src/infrastructure/parsers/markdown-task-parser.ts:307-360 | a default status is already normalised |
| MarkdownParser.SectionFrom | src/infrastructure/parsers/markdown-task-parser.ts:317-327 | the section from a line on: the header starts it, other lines are skipped |
| MarkdownParser.PrefixFrom | src/infrastructure/parsers/markdown-task-parser.ts:325-327 | an indented line extends the section |
| MarkdownParser.FoldExtend | src/infrastructure/parsers/markdown-task-parser.ts:342-347 | one more section line applies one more item |
| MarkdownParser.CollectDefaults | src/infrastructure/parsers/markdown-task-parser.ts:317-348 | the loop collects the items of the `defaults:` section in order |
| MarkdownParser.ParseDefaults | src/infrastructure/parsers/markdown-task-parser.ts:307-360 | the method returns the defaults of the raw front matter |
| MarkdownParser.Fences | src/infrastructure/parsers/markdown-task-parser.ts:45-56 | every line is checked for a fence |
| MarkdownParser.FirstFence | src/infrastructure/parsers/markdown-task-parser.ts:50-56 | the closing fence is searched from a given line on |
| MarkdownParser.FirstFenceIsFirst | src/infrastructure/parsers/markdown-task-parser.ts:50-56 | the fence found is the first one after the start |
| MarkdownParser.ClosingFence | src/infrastructure/parsers/markdown-task-parser.ts:50-56 | the closing fence comes after the opening line, or the front matter runs to the end |
| MarkdownParser.BodyStart | src/infrastructure/parsers/markdown-task-parser.ts:45-59 | tasks are read from a line within the file |
| MarkdownParser.StatusFor | src/infrastructure/parsers/markdown-task-parser.ts:77-82 | a non-empty inline status wins over the default status; the winner is normalised; the checkbox decides when nothing is left |
| MarkdownParser.LineOutcomes | src/infrastructure/parsers/markdown-task-parser.ts:41-111 | every line has an outcome |
| MarkdownParser.OutcomesStep | src/infrastructure/parsers/markdown-task-parser.ts:100-110 | one more line adds its task or its issue, in line order |
| MarkdownParser.ParseLine | src/infrastructure/parsers/markdown-task-parser.ts:61-110 | a checkbox line becomes the factory's task, or an issue at its line and column, as `OutcomeOfLine` says |
| MarkdownParser.ScanStep | src/infrastructure/parsers/markdown-task-parser.ts:41-111 | one turn of the loop keeps the facts about front matter, tasks and issues |
| MarkdownParser.FrontMatterShapeOf | src/infrastructure/parsers/markdown-task-parser.ts:45-59 | the front matter opens only on the first line and closes at the next fence |
| MarkdownParser.ScanFromFacts | src/infrastructure/parsers/markdown-task-parser.ts:41-111 | the facts hold at the end of the loop |
| MarkdownParser.ScanMatchesOutcomes | src/infrastructure/parsers/markdown-task-parser.ts:30-114 | the loop's tasks and issues are those of the line outcomes, in line order |
| MarkdownParser.ReadLine | src/infrastructure/parsers/markdown-task-parser.ts:41-111 | one turn of the loop: fences, front matter lines and body lines |
| MarkdownParser.ReadLines | src/infrastructure/parsers/markdown-task-parser.ts:41-111 | the loop over all lines |
| MarkdownParser.Parse | src/infrastructure/parsers/markdown-task-parser.ts:30-114 | parsing a file gives the tasks and issues of its lines in order (`ParseOutput`) |
| TaskFactory.InlineOverridesDefaults | src/domain/services/task-factory.ts:136-139 | a key present inline wins over the default, even when it holds nothing; otherwise the default is kept |
| TaskFactory.ReasonsOf | src/domain/services/task-factory.ts:44 | the reasons are the issues' tags, one per issue, in order |
| TaskFactory.Outcome | src/domain/services/task-factory.ts:32-73 | a failure always carries `Failed to create Task` and at least one reason; a created task keeps the given source and the trimmed title |
| TaskFactory.OutcomeOkIffChecksPass | src/domain/services/task-factory.ts:32-73 | creation succeeds exactly when all five checks pass; the task then holds the upper-cased id, the lower-cased status, the trimmed title, the merged attributes and the given source, and passes the task schema |
| TaskFactory.ReasonsOfConcat | src/domain/services/task-factory.ts:44 | the reasons of gathered issues are gathered in the same order |
| TaskFactory.ReasonsOfIssueIf | src/domain/services/task-factory.ts:75-151 | a check contributes its reason exactly when it fails |
| TaskFactory.ReasonsAreFailedChecks | src/domain/services/task-factory.ts:35-46 | the reasons name the failed checks in the order id, status, title, source, attributes |
| TaskFactory.FlagsHaveNoDuplicates | src/domain/services/task-factory.ts:35-46 | no reason is reported twice |
| TaskFactory.FailureReasons | src/domain/services/task-factory.ts:41-47 | a failure carries `Failed to create Task`, every issue found, and their reasons without repetition |
| TaskFactory.ParseId | src/domain/services/task-factory.ts:75-86 | the parsed id when valid; otherwise an issue is appended |
| TaskFactory.ParseStatus | src/domain/services/task-factory.ts:88-99 | the parsed status when valid; otherwise an issue is appended |
| TaskFactory.ParseTitle | src/domain/services/task-factory.ts:101-113 | the trimmed title when not blank; otherwise an issue is appended |
| TaskFactory.ParseSource | src/domain/services/task-factory.ts:115-129 | the source when valid; otherwise an issue is appended |
| TaskFactory.ParseAttributes | src/domain/services/task-factory.ts:131-151 | the merged attributes when they parse; otherwise an issue is appended |
| TaskFactory.Create | src/domain/services/task-factory.ts:32-73 | the method returns the outcome the checks determine |
| FileSystems.Lookup | src/infrastructure/patch/in-memory-file-system.ts:16-22 | a read succeeds exactly for a stored path, with its content; otherwise FILE_NOT_FOUND carrying the path |
| FileSystems.ReadAfterWrite | src/infrastructure/patch/in-memory-file-system.ts:16-27 | a read after a write returns what was written, and other paths read as before |
| FileSystems.InMemoryFileSystem.constructor | src/infrastructure/patch/in-memory-file-system.ts:14 | a new file system holds no file |
| FileSystems.InMemoryFileSystem.ReadFile | src/infrastructure/patch/in-memory-file-system.ts:16-22 | the stored content, or FILE_NOT_FOUND |
| FileSystems.InMemoryFileSystem.WriteFile | src/infrastructure/patch/in-memory-file-system.ts:24-27 | the path now holds the content, nothing else changes, and the write succeeds |
| FileSystems.InMemoryFileSystem.SetFile | src/infrastructure/patch/in-memory-file-system.ts:32-34 | the path now holds the content, nothing else changes |
| FileSystems.InMemoryFileSystem.GetFile | src/infrastructure/patch/in-memory-file-system.ts:39-41 | the stored content, or the empty string for a missing path |
| FileSystems.InMemoryFileSystem.HasFile | src/infrastructure/patch/in-memory-file-system.ts:46-48 | true exactly for a stored path |
| FileSystems.InMemoryFileSystem.Clear | src/infrastructure/patch/in-memory-file-system.ts:53-55 | afterwards every read fails |
| MarkdownPatch.MapFileSystemError | src/infrastructure/patch/markdown-patch.service.ts:200-215 | FILE_NOT_FOUND keeps its path (empty when missing), READ_ERROR becomes PARSE_ERROR, everything else WRITE_ERROR, each with its default message |
| MarkdownPatch.AttributeParts | src/infrastructure/patch/markdown-patch.service.ts:142-172 | the block always opens with the identifier entry; `PartsAreBindings` gives the full order |
| MarkdownPatch.Checkbox | src/infrastructure/patch/markdown-patch.service.ts:133 | the checkbox is ticked exactly for a finished task |
| MarkdownPatch.FormattedLineShape | src/infrastructure/patch/markdown-patch.service.ts:132-137 | `FormatTaskLine` writes the indentation, bullet, checkbox and title, then a block (`FormatAttributes`) opening with `id: <id>` |
| MarkdownPatch.AttributesTail | src/infrastructure/patch/markdown-patch.service.ts:142-172 | after the identifier comes nothing or a comma |
| MarkdownPatch.StatusEntryIffNotTodo | src/infrastructure/patch/markdown-patch.service.ts:149-151 | the status entry is written, right after the identifier, exactly when the status is not `todo` |
| MarkdownPatch.NoOtherPartStartsLikeStatus | src/infrastructure/patch/markdown-patch.service.ts:155-157 | a project entry never starts like the status entry |
| MarkdownPatch.FindTaskLine | src/infrastructure/patch/markdown-patch.service.ts:177-180 | the first line mentioning `id: <id>` between word boundaries, or none when no line does |
| MarkdownPatch.MentionsIdIn | src/infrastructure/patch/markdown-patch.service.ts:177-180 | `MentionsId`: `id: <id>` between non-word characters is found |
| MarkdownPatch.FormattedLineMentionsId | src/infrastructure/patch/markdown-patch.service.ts:132-180 | a formatted task line is found again by its identifier |
| MarkdownPatch.InsertAtIndex | src/infrastructure/patch/markdown-patch.service.ts:49-50 | `InsertedLines` with an index in range puts the task line there and shifts the rest by one |
| MarkdownPatch.InsertAtEnd | src/infrastructure/patch/markdown-patch.service.ts:51-57 | any other insert (`InsertedLines`) keeps every line, adds a blank line unless the file already ends with one, and appends the task line |
| MarkdownPatch.UpdateKeepsOtherLines | src/infrastructure/patch/markdown-patch.service.ts:84-88 | an update (`UpdatedLines`) replaces only the found line, keeps the line count and the old indentation |
| MarkdownPatch.DeleteKeepsOtherLines | src/infrastructure/patch/markdown-patch.service.ts:117 | a delete (`DeletedLines`) removes that one line and keeps the others in order |
| MarkdownPatch.EditedLines | src/infrastructure/patch/markdown-patch.service.ts:45-58 | an insert always succeeds; an update or delete fails with TASK_NOT_FOUND exactly when no line mentions the identifier |
| MarkdownPatch.Patched | src/infrastructure/patch/markdown-patch.service.ts:24-33 | a missing target file is FILE_NOT_FOUND; otherwise the file's content is edited (`PatchedContent`) |
| MarkdownPatch.UpdateIdempotent | src/infrastructure/patch/markdown-patch.service.ts:69-98 | updating the same task twice gives the file of one update |
| MarkdownPatch.UpdatedLinesLackNewline | src/infrastructure/patch/markdown-patch.service.ts:76-88 | an update writes no line feed into a line |
| MarkdownPatch.UpdateFindsItsOwnLine | src/infrastructure/patch/markdown-patch.service.ts:79-88 | after an update the task is found on the same line, and rewriting it changes nothing |
| MarkdownPatch.FirstMentionIs | src/infrastructure/patch/markdown-patch.service.ts:177-180 | the search returns the first line mentioning the identifier |
| TaskLineRoundTrip.PartsAreBindings | src/infrastructure/patch/markdown-patch.service.ts:142-172 | the formatter writes `id`, then `status` unless it is todo, then project, assignee, due, tags and depends, each left out when absent or empty, as `key: value` or `key: [a, b]` |
| TaskLineRoundTrip.PiecesOfJoin | src/infrastructure/parsers/markdown-task-parser.ts:210-238 | entries joined by `, ` split back at top-level commas into the same entries |
| TaskLineRoundTrip.BindRendered | src/infrastructure/parsers/markdown-task-parser.ts:182-208 | a written entry of plain values reads back as its key and value |
| TaskLineRoundTrip.EntriesReadBack | src/infrastructure/parsers/markdown-task-parser.ts:181-208 | the written entries read back, in order |
| TaskLineRoundTrip.BuildMapLookup | src/infrastructure/parsers/markdown-task-parser.ts:181-195 | a key of the block's map holds the value of the last entry naming it |
| TaskLineRoundTrip.BlockOnOneLine | src/infrastructure/patch/markdown-patch.service.ts:142-171 | for a task of plain values the block `FormatAttributes` writes opens with `{`, closes with `}` and holds no line terminator |
| TaskLineRoundTrip.BlockReadBack | src/infrastructure/parsers/markdown-task-parser.ts:163-198 | the block `FormatAttributes` writes parses to the map of the task's entries |
| TaskLineRoundTrip.IdAndStatusReadBack | src/infrastructure/parsers/markdown-task-parser.ts:71-82 | from that map the parser takes the task's own id (`IdFor`, no generated one) and, with the written checkbox, its status (`StatusFor`) |
| TaskLineRoundTrip.AttributesReadBack | src/infrastructure/parsers/markdown-task-parser.ts:275-301 | from that map the parser hands over exactly the task's present attributes |
| TaskLineRoundTrip.SplitOf | src/infrastructure/parsers/markdown-task-parser.ts:144-159 | a title, a space and a braced block split into that title and that block |
| TaskLineRoundTrip.LineMatches | src/infrastructure/parsers/markdown-task-parser.ts:125-142 | the line `FormatTaskLine` writes matches as a checkbox line with the task's title and block, its column right after the indentation |
| TaskLineRoundTrip.InputSanitizesBack | src/domain/entities/task-attributes.ts:47-59 | the attribute input read from the block sanitises back to the task's attributes |
| TaskLineRoundTrip.FactoryRebuilds | src/domain/services/task-factory.ts:32-73 | handed the fields of a valid task, the factory builds that task again |
| TaskLineRoundTrip.FormattedLineReadBack | src/infrastructure/parsers/markdown-task-parser.ts:61-111 | a valid task written as a line and read back from a file without defaults is the same task, placed at that line |
| MarkdownPatch.MarkdownPatchService.constructor | src/infrastructure/patch/markdown-patch.service.ts:19-22 | the service edits the given file system |
| MarkdownPatch.MarkdownPatchService.ApplyPatch | src/infrastructure/patch/markdown-patch.service.ts:24-127 | on success exactly the target file is rewritten with the patched content; on failure the error comes back and no file changes |
| TaskOrder.CompareStrings | src/infrastructure/index/memory-task-index.ts:8 | the path comparison is a three-way comparison that is zero exactly for equal strings |
| TaskOrder.CompareStringsFlips | src/infrastructure/index/memory-task-index.ts:8 | swapping the operands flips the comparison |
| TaskOrder.CompareStringsTransitive | src/infrastructure/index/memory-task-index.ts:8 | the comparison is transitive |
| TaskOrder.CompareTasks | src/infrastructure/index/memory-task-index.ts:7-18 | the comparator is zero exactly for tasks at the same file, line and column, and orders tasks of different files by path |
| TaskOrder.PrecedesTotal | src/infrastructure/index/memory-task-index.ts:7-18 | of any two tasks one comes no later than the other |
| TaskOrder.PrecedesTransitive | src/infrastructure/index/memory-task-index.ts:7-18 | the listing order is transitive |
| TaskOrder.Insert | src/infrastructure/index/memory-task-index.ts:7-18 | inserting adds exactly the one task |
| TaskOrder.InsertSorted | src/infrastructure/index/memory-task-index.ts:7-18 | inserting into a sorted list keeps it sorted |
| TaskOrder.SortTasks | src/infrastructure/index/memory-task-index.ts:6-19 | sorting keeps exactly the same tasks |
| TaskOrder.SortTasksSorted | src/infrastructure/index/memory-task-index.ts:6-19 | the result is ordered by path, then line, then column |
| TaskIndex.UpsertKeepsLockstep | src/infrastructure/index/memory-task-index.ts:42-50 | an upsert (`Upserted`, through `RemovedFromFile` and `AddedToFile`) keeps the two maps in step (`Lockstep`) |
| TaskIndex.AddKeepsLockstep | src/infrastructure/index/memory-task-index.ts:66-69 | storing a task with a new identifier (`AddedToFile`) keeps the two maps in step |
| TaskIndex.RemoveKeepsLockstep | src/infrastructure/index/memory-task-index.ts:52-60 | a removal (`Removed`, through `RemovedFromFile`) keeps the two maps in step |
| TaskIndex.LoadedKeys | src/infrastructure/index/memory-task-index.ts:62-70 | a load (`Loaded`) stores exactly the identifiers of the given tasks |
| TaskIndex.LoadKeepsLockstep | src/infrastructure/index/memory-task-index.ts:62-70 | a load of tasks with distinct identifiers keeps the two maps in step |
| TaskIndex.DuplicateLoadBreaksLockstep | src/infrastructure/index/memory-task-index.ts:62-70 | with a repeated identifier in two files, the earlier task stays in its file's bucket although the identifier map holds the later one |
| TaskIndex.InMemoryTaskIndex.constructor | src/infrastructure/index/memory-task-index.ts:22-24 | a new index is empty and consistent |
| TaskIndex.InMemoryTaskIndex.FindById | src/infrastructure/index/memory-task-index.ts:26-28 | the stored task, or nothing for an unknown identifier |
| TaskIndex.InMemoryTaskIndex.ListAll | src/infrastructure/index/memory-task-index.ts:30-32 | every stored task exactly once, in listing order |
| TaskIndex.InMemoryTaskIndex.ListByFile | src/infrastructure/index/memory-task-index.ts:34-40 | the tasks of that file exactly, in listing order; none for an unknown file |
| TaskIndex.InMemoryTaskIndex.Upsert | src/infrastructure/index/memory-task-index.ts:42-50 | the task replaces any task with its identifier, leaving that task's old bucket; a consistent index stays consistent |
| TaskIndex.InMemoryTaskIndex.Remove | src/infrastructure/index/memory-task-index.ts:52-60 | the task leaves both maps and an unknown identifier changes nothing; a consistent index stays consistent |
| TaskIndex.InMemoryTaskIndex.Replace | src/infrastructure/index/memory-task-index.ts:62-70 | the index holds exactly the loaded tasks, consistent when their identifiers are distinct |
| TaskIndex.InMemoryTaskIndex.AddToFile | src/infrastructure/index/memory-task-index.ts:72-82 | the task joins its file's bucket, which is created if needed |
| TaskIndex.InMemoryTaskIndex.RemoveFromFile | src/infrastructure/index/memory-task-index.ts:84-95 | the identifier leaves the bucket, and an emptied bucket is dropped |
| TaskIndex.SortedValues | src/infrastructure/index/memory-task-index.ts:6-19 | the values of a map, each once, in listing order |
| TaskIndex.UpsertThenFind | src/infrastructure/index/memory-task-index.ts:42-50 | after an upsert the task is found under its identifier, and a second upsert under the same identifier adds no key |
| TaskIndex.UpsertMovesBetweenBuckets | src/infrastructure/index/memory-task-index.ts:42-50 | a task moved to another file leaves its old bucket |
| TaskScanner.ChooseList | src/infrastructure/scanner/file-system-task-scanner.ts:48-53 | the call's list when given, else the scanner's configured list, else the built-in one; a chosen empty list falls back to the built-in list |
| TaskScanner.NormalizeOptions | src/infrastructure/scanner/file-system-task-scanner.ts:47-55 | both normalised lists are non-empty |
| TaskScanner.Tokenize | src/infrastructure/scanner/file-system-task-scanner.ts:120-157 | the translation has at most one piece per pattern character and is empty only for the empty pattern |
| TaskScanner.TokenizeAt | src/infrastructure/scanner/file-system-task-scanner.ts:123-154 | the translation reads one piece at an index and continues after it |
| TaskScanner.TokenizeStep | src/infrastructure/scanner/file-system-task-scanner.ts:123-154 | one turn of the translation loop appends the piece read there |
| TaskScanner.GlobToRegExp | src/infrastructure/scanner/file-system-task-scanner.ts:120-157 | the loop produces the translation of the whole pattern |
| TaskScanner.AnySegmentMeaning | src/infrastructure/scanner/file-system-task-scanner.ts:141 | in the anchored match (`Matches`), `*` matches any run of characters without a slash |
| TaskScanner.AnyTextMeaning | src/infrastructure/scanner/file-system-task-scanner.ts:136 | `**` matches any run of characters without a line terminator |
| TaskScanner.AnyDirsMeaning | src/infrastructure/scanner/file-system-task-scanner.ts:130-133 | `**/` matches nothing, or any run of characters without a line terminator that ends in a slash |
| TaskScanner.DirsThenMeaning | src/infrastructure/scanner/file-system-task-scanner.ts:131 | the optional group `(?:.*/)?` followed by the rest, spelled out |
| TaskScanner.LiteralPatternMatchesItself | src/infrastructure/scanner/file-system-task-scanner.ts:152-166 | a pattern without `*` or `?` matches exactly itself, its special characters escaped |
| TaskScanner.Variants | src/infrastructure/scanner/file-system-task-scanner.ts:159-162 | the path itself is tried, and a non-empty path also with a leading `./` |
| TaskScanner.ExtensionPatternTokens | src/infrastructure/scanner/file-system-task-scanner.ts:120-157 | `**/*<ext>` translates to `(?:.*/)?`, `[^/]*` and the literal extension |
| TaskScanner.NameWithExtensionMatches | src/infrastructure/scanner/file-system-task-scanner.ts:141 | `*<ext>` matches any slash-free name with that extension |
| TaskScanner.ExtensionBelowAnyDirsMatches | src/infrastructure/scanner/file-system-task-scanner.ts:120-162 | `**/*<ext>` matches a file with that extension in any folder |
| TaskScanner.DefaultIncludePattern | src/infrastructure/scanner/file-system-task-scanner.ts:11 | the built-in include pattern is `**/*.md` |
| TaskScanner.DefaultIncludeKeepsMarkdown | src/infrastructure/scanner/file-system-task-scanner.ts:11 | with the built-in include list every `.md` file matches (`MatchesAny`, the include half of `KeepsFile`), at any depth |
| TaskScanner.LiteralBelowAnyDirsTokens | src/infrastructure/scanner/file-system-task-scanner.ts:120-157 | `**/<name>**` translates to `(?:.*/)?`, the literal name and `.*` |
| TaskScanner.LiteralBelowAnyDirsMatches | src/infrastructure/scanner/file-system-task-scanner.ts:120-162 | `**/<name>**` matches the name in any folder |
| TaskScanner.DefaultExcludePattern | src/infrastructure/scanner/file-system-task-scanner.ts:12 | the first built-in exclude pattern is `**/node_modules/**` |
| TaskScanner.DefaultExcludeSkipsNodeModules | src/infrastructure/scanner/file-system-task-scanner.ts:12 | with the built-in exclude list no `node_modules` folder is entered (`EntersDirectory`), at any depth |
| TaskScanner.LiteralTokens | src/infrastructure/scanner/file-system-task-scanner.ts:152 | a pattern without `*` or `?` translates to literal characters only |
| TaskScanner.TokenizeAppend | src/infrastructure/scanner/file-system-task-scanner.ts:123-154 | a text without `*` translates on its own, whatever follows it |
| TaskScanner.MatchesLiteralThenAnyText | src/infrastructure/scanner/file-system-task-scanner.ts:136 | a trailing `**` can match nothing |
| TaskScanner.ToPosixOnPosix | src/infrastructure/scanner/file-system-task-scanner.ts:113-118 | with `/` as the platform separator `ToPosix` leaves a path unchanged |
| TaskScanner.ScannedBasesDistinct | src/infrastructure/scanner/file-system-task-scanner.ts:33-39 | each resolved folder is scanned at most once |
| TaskScanner.EveryFolderScanned | src/infrastructure/scanner/file-system-task-scanner.ts:33-42 | every folder's resolved path is scanned |
| TaskScanner.PathPrecedesTotal | src/infrastructure/scanner/file-system-task-scanner.ts:44 | any two files are ordered by path one way or the other |
| TaskScanner.PathPrecedesTransitive | src/infrastructure/scanner/file-system-task-scanner.ts:44 | the path order is transitive |
| TaskScanner.InsertFile | src/infrastructure/scanner/file-system-task-scanner.ts:44 | inserting adds exactly the one file |
| TaskScanner.InsertFileSorted | src/infrastructure/scanner/file-system-task-scanner.ts:44 | inserting into a sorted list keeps it sorted |
| TaskScanner.SortFiles | src/infrastructure/scanner/file-system-task-scanner.ts:44 | sorting keeps exactly the same files |
| TaskScanner.SortFilesSorted | src/infrastructure/scanner/file-system-task-scanner.ts:44 | the scan result is ordered by file path |
| TaskScanner.TokenizeAll | src/infrastructure/scanner/file-system-task-scanner.ts:27-28 | every pattern is translated, in order |
| TaskScanner.ScannedBasesStep | src/infrastructure/scanner/file-system-task-scanner.ts:33-39 | one turn of the folder loop skips a seen folder and scans a new one |
| TaskScanner.CollectedSnoc | src/infrastructure/scanner/file-system-task-scanner.ts:40-41 | one more folder appends its files |
| TaskScanner.CollectFolders | src/infrastructure/scanner/file-system-task-scanner.ts:33-42 | the folder loop walks every distinct resolved folder once, in order, and appends its files |
| TaskScanner.Scan | src/infrastructure/scanner/file-system-task-scanner.ts:22-45 | the files of every distinct resolved folder, walked with the normalised patterns, sorted by path |
| ExtensionSettings.ReadStringArray | src/infrastructure/settings/extension-settings.service.ts:32-40 | absent exactly when the setting is not an array |
| ExtensionSettings.ReadStringArrayKeepsStrings | src/infrastructure/settings/extension-settings.service.ts:39 | an array setting reads as exactly its string entries |
| ExtensionSettings.GetScannerOptions | src/infrastructure/settings/extension-settings.service.ts:18-30 | absent exactly when neither setting is an array; otherwise each list is set exactly when its setting is an array |
| BuildIndex.WithPath | src/application/usecases/build-task-index.usecase.ts:53-55 | each issue of a file, in order, carries that file's path |
| BuildIndex.AllTasksMembers | src/application/usecases/build-task-index.usecase.ts:26-30 | a task is in the build output (`AllTasks`) exactly when the parser produced it for one of the files |
| BuildIndex.BuildResultAppend | src/application/usecases/build-task-index.usecase.ts:26-30 | building two lists of files (`BuildResult`) concatenates the two outputs: files keep their order and nothing is dropped |
| BuildIndex.AllIssuesTagged | src/application/usecases/build-task-index.usecase.ts:26-30 | every collected issue (`AllIssues`) is some file's parser issue tagged with that file's path |
| BuildIndex.CollectIssues | src/application/usecases/build-task-index.usecase.ts:44-56 | appends exactly the file's issues, tagged with its path, to the store |
| BuildIndex.Execute | src/application/usecases/build-task-index.usecase.ts:22-38 | returns every file's tasks and tagged issues in file order, and replaces the index with exactly those tasks |
| BuildIndex.MergeScannerOptions | src/application/services/task-index.service.ts:69-84 | each list from the explicit options when set, else from the settings; absent exactly when neither sets either list |
| BuildIndex.ExplicitOptionsWin | src/application/services/task-index.service.ts:73-74 | explicit options setting both lists are used as they are |
| BuildIndex.MergeWithoutSettings | src/application/services/task-index.service.ts:73-78 | without settings, explicit options pass through unless they set neither list |
| BuildIndex.TaskIndexService.constructor | src/application/services/task-index.service.ts:28-32 | a new service is not initialised and has no issues |
| BuildIndex.TaskIndexService.Initialize | src/application/services/task-index.service.ts:34-51 | scans with the merged options, loads the index with the build's tasks, keeps the build's issues and marks the service initialised |
| BuildIndex.TaskIndexService.ListAll | src/application/services/task-index.service.ts:53-56 | refused with the not-initialised error before a build; afterwards every indexed task once, sorted |
| BuildIndex.TaskIndexService.GetIssues | src/application/services/task-index.service.ts:58-60 | the last build's issues |
| TaskUseCases.GenerateTaskId | src/application/usecases/create-task.usecase.ts:68-73 | `T-` followed by the first six characters of the ULID |
| TaskUseCases.GeneratedIdIsLegacy | src/application/usecases/create-task.usecase.ts:68-73 | a generated identifier is accepted by the task id rule |
| TaskUseCases.NewTask | src/application/usecases/create-task.usecase.ts:35-48 | the new task has the generated id, the input's title and path, status todo, column 0, the given line or -1, the given attributes when there are some and empty attributes otherwise |
| TaskUseCases.AppendedTaskHasNegativeLine | src/application/usecases/create-task.usecase.ts:45 | a task appended at the end of a file is recorded with a line the task source rule refuses |
| TaskUseCases.CreateTask | src/application/usecases/create-task.usecase.ts:30-66 | inserts the task into its file; on a patch error returns it and leaves file and index unchanged, otherwise upserts the task and returns it; a consistent index stays consistent |
| TaskUseCases.MergedTask | src/application/usecases/update-task.usecase.ts:39-47 | the given title, status and attributes replace the stored ones, null attributes become empty ones, and id and source are kept |
| TaskUseCases.EmptyUpdateKeepsTask | src/application/usecases/update-task.usecase.ts:39-47 | an update naming no field leaves the task unchanged |
| TaskUseCases.Then | src/application/usecases/update-task.usecase.ts:39-47 | the composition of two updates names a field exactly when either does, the later value winning |
| TaskUseCases.MergeTwice | src/application/usecases/update-task.usecase.ts:39-47 | applying two updates in turn is applying their composition `Then` once |
| TaskUseCases.ThenAssociative | src/application/usecases/update-task.usecase.ts:39-47 | composing updates is associative |
| TaskUseCases.UpdateTask | src/application/usecases/update-task.usecase.ts:30-63 | an unknown id is TASK_NOT_FOUND with nothing changed; otherwise the merged task's line is rewritten and, on success only, upserted; a consistent index stays consistent |
| TaskUseCases.UpdateKeepsPlace | src/application/usecases/update-task.usecase.ts:39-60 | the updated task keeps its identifier, its file and its place in both index maps |
| TaskUseCases.DeleteTask | src/application/usecases/delete-task.usecase.ts:28-51 | an unknown id is TASK_NOT_FOUND with nothing changed; otherwise the line is deleted from the task's own file and, on success only, the task leaves the index; a consistent index stays consistent |
| Board.ColumnOf | src/interface/webview/board-view-provider.ts:140-148 | a status is shown in its own column, and archived is never a column |
| Board.InColumnMembers | src/interface/webview/board-view-provider.ts:132-151 | a task is in a column (`InColumn`) exactly when it is one of the tasks and its status belongs to that column |
| Board.ColumnsPartition | src/interface/webview/board-view-provider.ts:132-151 | the four columns together hold exactly the tasks, each once |
| Board.InColumnAppend | src/interface/webview/board-view-provider.ts:138-149 | grouping keeps the input order within each column |
| Board.GroupTasksByStatus | src/interface/webview/board-view-provider.ts:132-151 | the loop groups every task into the column of its status, in input order |
| Board.TaskToCardData | src/interface/webview/board-view-provider.ts:156-169 | a card carries the task's id, title, status, due date, assignee, project, path and line, with missing tags and depends as empty lists |
| Board.Cards | src/interface/webview/board-view-panel.ts:105-147 | one card per task, in order |
| Board.BoardFor | src/interface/webview/board-view-panel.ts:105-147 | four columns in the order todo, doing, blocked, done |
| Board.ColumnIndex | src/interface/webview/board-view-panel.ts:105-147 | every status names one of the four columns |
| Board.EveryTaskHasCard | src/interface/webview/board-view-panel.ts:105-147 | every task appears as a card in the column of its status |
| Board.CreateBoardData | src/interface/webview/board-view-panel.ts:105-147 | builds the four columns of cards from the grouped tasks |
| Board.TasksOfFile | src/interface/webview/board-view-panel.ts:88-89 | the panel shows exactly the tasks of its own file |
| Board.TasksOfFileAppend | src/interface/webview/board-view-panel.ts:88-89 | the filter keeps listing order: filtering two lists in turn filters their concatenation |
| Board.TasksOfFileCount | src/interface/webview/board-view-panel.ts:88-89 | each task of the file is kept as often as it is listed, and no other task is kept |
| Board.TrimmedString | src/interface/webview/board-view-panel.ts:441-502 | a string field is kept trimmed, and dropped when blank or not a string |
| Board.TrimmedList | src/interface/webview/board-view-panel.ts:441-502 | only an array gives a list: its string entries, trimmed, blanks dropped, in order (`TrimmedNonEmpty` of `StringsOf`), dropped when none is left |
| Board.TrimmedListKeeps | src/interface/webview/board-view-panel.ts:471-479 | a non-blank string in an array is kept, trimmed, so the list is present |
| Board.SetIfSome | src/interface/webview/board-view-panel.ts:441-502 | a cleaned field is set exactly when it survived cleaning |
| Board.ExtractAttributes | src/interface/webview/board-view-panel.ts:441-502 | absent exactly when no field survives cleaning; otherwise not empty, and each key holds its own raw field cleaned (`TrimmedString`, `TrimmedList`), `due` coming from `dueDate` |
| Board.ExtractedFieldsClean | src/interface/webview/board-view-panel.ts:441-502 | every extracted string is non-blank and trimmed |
| Board.NormalizeAttributesInput | src/interface/webview/board-view-panel.ts:426-439 | only an object payload yields attributes: those extracted from its `assignee`, `due ?? dueDate`, `tags`, `project` and `depends` properties |
| Board.DueFallsBackToDueDate | src/interface/webview/board-view-panel.ts:432 | without `due`, a non-blank `dueDate` gives the due date, trimmed |
| Board.DueWinsOverDueDate | src/interface/webview/board-view-panel.ts:432 | a non-blank `due` string gives the due date, whatever `dueDate` holds |
| Board.BlankDueHidesDueDate | src/interface/webview/board-view-panel.ts:432 | a blank `due` string is not missing, so `dueDate` is not consulted and no due date results |
| Board.MergeAttributes | src/interface/webview/board-view-panel.ts:504-518 | absent exactly when neither input sets a key; otherwise every key is the second input's when it has it and the first's when not (`KeyWins`) |
| Board.MergeOfExtracted | src/interface/webview/board-view-panel.ts:504-518 | merging two extracted inputs is absent exactly when both are |
| Board.FieldOverridesPayload | src/interface/webview/board-view-panel.ts:512-513 | for each of the five keys, a key typed into the board overrides the payload's, and a key not typed keeps the payload's value |
| Board.ConvertAttributes | src/interface/webview/board-view-panel.ts:529-548 | an invalid non-empty due date is rejected; otherwise every key is carried over and an empty due date dropped |
| Board.ToCreateAttributes | src/interface/webview/board-view-panel.ts:520-549 | nothing is sent exactly when there are no attributes, and create never clears |
| Board.ToUpdateAttributes | src/interface/webview/board-view-panel.ts:551-582 | absent attributes send nothing and null clears, each exactly |
| Board.ValidDueConverts | src/interface/webview/board-view-panel.ts:529-535 | a valid calendar date, or no due date, always converts |
| Board.PanelCreateInput | src/interface/webview/board-view-panel.ts:251-290 | the create use case is called exactly when title and file path are non-empty, with that title and path and no insert line; it sends no attributes when the merged attributes (`PanelAttributes`) are absent or their due date is rejected, and the converted attributes otherwise |
| Board.RejectedDueStillCreates | src/interface/webview/board-view-panel.ts:284-290 | when the due date is rejected the task is still created, without attributes |
| Board.ProviderCreateInput | src/interface/webview/board-view-provider.ts:211-234 | the sidebar's create is called exactly when title and file path are non-empty, and sends no attributes |
| Board.PanelUpdateInput | src/interface/webview/board-view-panel.ts:309-361 | the update use case is called exactly when the id is non-empty and updates are given, with the id, a non-empty title and the status; it leaves attributes unset when the merged attributes are absent or their due date is rejected, and sets the converted attributes otherwise |
| Board.ProviderUpdateInput | src/interface/webview/board-view-provider.ts:253-289 | the sidebar's update is called exactly when the id is non-empty and updates are given, with that id, a non-empty title and the status, and sends no attributes |
| Board.EmptyTitleKeepsTitle | src/interface/webview/board-view-provider.ts:282-284 | an empty title from the board leaves the title as it was, although the update use case would store it |
| Board.PanelNeverClears | src/interface/webview/board-view-panel.ts:346-358 | the panel's update never clears the attributes |

## Left out

- Real I/O is left out. This covers the VS Code file system, `readdir`, `readFile` and `path.resolve` in the scanner, and the directory walk. The scanner takes the folder resolution and the walk as parameters. The file system is the in-memory map, which never fails to read or write. READ_ERROR and WRITE_ERROR appear only in the pure error mapping.
- Activation, dependency wiring, the file watcher's debounce timers, the webview UI and HTML, and `postMessage` are left out. They only construct objects, schedule work or talk to VS Code. A `task:error` message sent to the webview is modelled as the outcome value `Board.DueRejected`.
- async/await is modelled as sequential calls; no interleaving of concurrent operations is modelled.
- ULID generation is a parameter. It is an arbitrary 26-character string over Crockford's base-32 alphabet.
- The task factory is a parameter of the parser, as the parser's constructor takes it.
- `localeCompare` is modelled as the lexicographic order on character codes. Any fixed total order gives the same proofs. Locale-specific collation is not modelled.
- Zod and the JavaScript regular-expression engine are replaced by explicit predicates. They accept the same strings, read as sequences of Unicode characters; the UTF-16 line below gives the exception. Zod's built-in messages for enum and type failures are approximated. The messages the source writes itself are kept exactly.
- TaskFactory.ParseTitle, TaskFactory.ParseSource: the issue message is the first schema issue's text, and no `detail` is kept. The source stores Zod's `error.message`, which is a JSON rendering of the whole issue list, together with `error.format()`. Zod's serialisation is not modelled. TaskFactory.Outcome carries the same message in its title and source issues.
- MarkdownParser.MatchTaskLine, MarkdownParser.IsCheckbox: a string here is a sequence of Unicode characters, while a JavaScript string is a sequence of UTF-16 code units. A character outside the Basic Multilingual Plane is one character here but two code units there. So `- [😀] x` is a checkbox line in the model, while the source's `[^\]]\]` rejects it. Columns and lengths count characters, not code units.
- TaskScanner.Tokenize, TaskScanner.Matches: for the same reason, the glob `?` matches a whole character outside the Basic Multilingual Plane here, but only one of its two code units in the source.
- TaskScanner.KeepsFile, TaskScanner.EntersDirectory: the include and exclude decisions of the directory walk are stated only as predicates. The walk itself reads the real file system. It is a parameter that TaskScanner.Scan does not constrain.
- TaskLineRoundTrip.FormattedLineReadBack: the round trip is proved for values the one-line format can carry. Such values are non-empty, trimmed, on one line, free of commas and square brackets, and do not open with a quote; the title also holds no `{`. It is proved for a file without front-matter defaults, since defaults would fill in attributes the task leaves out.
- Case mapping is ASCII-only. Unicode special cases of `toUpperCase`/`toLowerCase` are not modelled; they change length or map non-ASCII letters.
- TaskIndex.InMemoryTaskIndex.ListAll, TaskIndex.InMemoryTaskIndex.ListByFile: the order among tasks with the same file, line and column is not fixed. JavaScript's sort is stable over Map insertion order, which the model does not track. The contracts state sortedness and the exact set of tasks.
- MarkdownPatch.UpdateIdempotent: proved only for a formatted line without a line break and an id that ends in a word character. Otherwise the `\b` in the line search may fail to find the line it wrote.
- The JSON payloads of the webview and the YAML front matter are untyped values (`Js.JsValue`). Fields the source only casts are read at their declared type.
- TaskUseCases.GenerateTaskId: the source comment speaks of the first ten characters of the ULID, but the code takes six. The model follows the code.
- Old test expectations that contradict the code are not modelled. These are: an issue for a task without id, re-initialisation throwing, and relative scanned paths. The model follows the code: it generates the id, allows re-initialisation and keeps absolute paths.
- The CONFLICT patch error is declared but never produced, so it is not modelled.
- The in-memory test scanner is a test stub and is not part of this model.
