# Jingle page guidelines server — the tool-call handler

The `jingle-page-guidelines` MCP server answers four tools from one
`CallToolRequestSchema` handler in `src/mcp-server/dist/page-guidelines-server.js`:

- `get_page_guidelines` picks sections of the `PAGE_GUIDELINES` table by category;
- `generate_page_template` fills one of the three `PAGE_TEMPLATES` with a name;
- `validate_page_structure` checks code for required substrings, per type;
- `get_naming_suggestions` derives names from a free-text description.

This project models that handler and proves properties of it. It is split
into one module per concern:

| file | module | contents |
|---|---|---|
| `text.dfy` | `Text` | `String.prototype.includes`, `join`, ASCII `toUpperCase`/`toLowerCase`, first-letter casing, `split(/\s+/)` |
| `replace.dfy` | `Replace` | `String.prototype.replace` with a global pattern: leftmost, non-overlapping matches and the `$$`, `$&`, `` $` ``, `$'` replacement patterns |
| `results.dfy` | `Results` | a reply or a thrown error (an `Error` raised by the handler, or the `TypeError` of reading a property of a missing argument) |
| `templates.dfy` | `Templates` | the three templates, character for character, as sequences of text pieces and placeholder holes; `generate_page_template` |
| `validation.dfy` | `Validation` | the checks of `validate_page_structure`, an imperative `CheckStructure` proved against them, and the result text |
| `naming.dfy` | `Naming` | `get_naming_suggestions` |
| `guidelines.dfy` | `Guidelines` | the top-level sections of `PAGE_GUIDELINES` and what each category selects |
| `server.dfy` | `Server` | the dispatch on the tool name, as a function `Handle` and an imperative `CallTool` proved equal to it |

Each template is a sequence of pieces. A `Lit` piece holds a short run
of the source template in which no `[` starts a placeholder. A `Hole`
piece holds one of `[PageName]`, `[ModelName]` or `[modelName]`. Rendering
the pieces gives the template exactly. One `replace(/\[X\]/g, v)` then
turns every `X` hole into `v` and leaves the text alone, provided `v`
holds no `$`. Whatever `v` holds, the text pieces survive the replace.

Three places where the code, not the documented intent, is modelled:

- A `file` name is `words.join("-")` with no fallback. So an empty
  description gives the empty file name (`Naming.EmptyDescriptionNames`).
  Only the api names fall back to `item`.
- The page template uses only the capitalised name (`pascalName`). The
  camel-case name is computed but not used for pages.
- `split(/\s+/)` keeps empty words; nothing discards them. A description
  that starts or ends with whitespace has an empty first or last word. So
  `" user"` gives the api names `itemList`… and the file name `-user`
  (`Naming.LeadingBlankKeepsEmptyWord`).

## Model

| member | source | states |
|---|---|---|
| Text.Includes | src/mcp-server/dist/page-guidelines-server.js:372-401 | defines `code.includes(p)`: `p` occurs in the code as a contiguous substring; its properties are in `IncludesLeft`, `IncludesRight`, `IncludesPrefixOf`, `IncludesWitness` and `IncludesAt` |
| Text.Join | src/mcp-server/dist/page-guidelines-server.js:406 | defines `parts.join(sep)`, with no separator around fewer than two parts; its properties are in `SplitJoin`, `JoinSplit` and `Validation.Report` |
| Text.IsSpace | src/mcp-server/dist/page-guidelines-server.js:419 | defines the `\s` class of `split(/\s+/)`, the ECMAScript white space and line terminators; its properties are in `Split`, `IsSpaceToLower` and `IsSpaceToUpper` |
| Text.IncludesRight | src/mcp-server/dist/page-guidelines-server.js:372-401 | a substring of the right part of a concatenation is a substring of the whole |
| Text.IncludesLeft | src/mcp-server/dist/page-guidelines-server.js:372-401 | a substring of the left part of a concatenation is a substring of the whole |
| Text.IncludesPrefixOf | src/mcp-server/dist/page-guidelines-server.js:372-401 | a string that includes `p + q` includes `p` |
| Text.IncludesWitness | src/mcp-server/dist/page-guidelines-server.js:372-401 | a string that includes `p` holds `p` at some position |
| Text.IncludesAt | src/mcp-server/dist/page-guidelines-server.js:372-401 | a string holding `p` at some position includes `p` |
| Text.ToUpperChar | src/mcp-server/dist/page-guidelines-server.js:338 | a lower-case letter becomes an upper-case letter that lower-cases back to it; every other character is left unchanged |
| Text.ToLowerChar | src/mcp-server/dist/page-guidelines-server.js:339 | an upper-case letter becomes a lower-case letter; every other character is left unchanged |
| Text.CharCaseRoundTrip | src/mcp-server/dist/page-guidelines-server.js:338-339 | lower-casing after upper-casing is lower-casing, and the other way round; so an upper-case letter, lower-cased, upper-cases back to itself |
| Text.ToLower | src/mcp-server/dist/page-guidelines-server.js:419 | `description.toLowerCase()` keeps the length and lower-cases every character |
| Text.UpperFirst | src/mcp-server/dist/page-guidelines-server.js:338 | `name.charAt(0).toUpperCase() + name.slice(1)` keeps the length and all but the first character, and the first is then not lower-case; "" stays "" |
| Text.LowerFirst | src/mcp-server/dist/page-guidelines-server.js:339 | the camel-case name keeps the length and all but the first character, and the first is then not upper-case |
| Text.CaseFlipsKeep | src/mcp-server/dist/page-guidelines-server.js:338-339 | neither casing introduces a non-letter the name does not hold, such as `$` or `[` |
| Text.FirstCaseRoundTrip | src/mcp-server/dist/page-guidelines-server.js:338-339 | the camel name of the Pascal name is the camel name; the Pascal name of the camel name is the Pascal name; capitalising twice is capitalising once |
| Text.LowerUpperFirst | src/mcp-server/dist/page-guidelines-server.js:433-435 | lower-casing a capitalised lower-case word gives the word back |
| Text.LowerOfConcat | src/mcp-server/dist/page-guidelines-server.js:419 | lower-casing distributes over concatenation |
| Text.SkipSpaces | src/mcp-server/dist/page-guidelines-server.js:419 | drops the leading whitespace run: every dropped character is whitespace, the rest does not start with whitespace, and something is dropped when the input starts with whitespace |
| Text.Split | src/mcp-server/dist/page-guidelines-server.js:419 | `split(/\s+/)` gives at least one word, none holding whitespace; the first word is a prefix of the input and is empty exactly when the input is empty or starts with whitespace |
| Text.JoinSplit | src/mcp-server/dist/page-guidelines-server.js:446 | joining the words of `split(/\s+/)` with a separator replaces each whitespace run by the separator |
| Text.SplitWord | src/mcp-server/dist/page-guidelines-server.js:419 | a string without whitespace splits into itself alone |
| Text.SplitAtBlank | src/mcp-server/dist/page-guidelines-server.js:419 | a word, a blank and a rest that does not start with whitespace split into the word followed by the rest's words |
| Text.SplitJoin | src/mcp-server/dist/page-guidelines-server.js:419 | words without whitespace, none empty but possibly the first and the last, joined by single blanks split back into the same words |
| Text.SplitLowered | src/mcp-server/dist/page-guidelines-server.js:419 | the words of a lower-case string are lower-case |
| Text.IsSpaceToLower | src/mcp-server/dist/page-guidelines-server.js:419 | lower-casing neither makes nor removes whitespace |
| Text.IsSpaceToUpper | src/mcp-server/dist/page-guidelines-server.js:434 | upper-casing neither makes nor removes whitespace |
| Replace.Expand | src/mcp-server/dist/page-guidelines-server.js:342-352 | defines how one match's replacement is read: `$$`, `$&`, `` $` `` and `$'` stand for `$`, the match, the text before it and the text after it, and every other character for itself; its properties are in `ExpandLiteral`, `ExpandMatched` and `DoubleDollarExpands` |
| Replace.Scan | src/mcp-server/dist/page-guidelines-server.js:342-352 | defines the left-to-right search for non-overlapping matches, each replaced by its expansion; its properties are in `ScanLiteral`, `ScanMatchedIsIdentity`, `ScanAbsent`, `ScanClean` and `ScanKeeps` |
| Replace.ReplaceAll | src/mcp-server/dist/page-guidelines-server.js:342 | defines `s.replace(/pat/g, rep)` as the scan of all of `s`; its properties are in `ReplaceAllLiteral`, `ReplaceAllMatchedIsIdentity` and `ReplaceAllAbsent` |
| Replace.ExpandLiteral | src/mcp-server/dist/page-guidelines-server.js:342 | a replacement without `$` is inserted literally |
| Replace.ScanLiteral | src/mcp-server/dist/page-guidelines-server.js:342-352 | whatever text was searched before, the pattern-expanding scan with a `$`-free replacement equals the plain leftmost, non-overlapping substitution |
| Replace.ReplaceAllLiteral | src/mcp-server/dist/page-guidelines-server.js:342-352 | `replace(/tok/g, rep)` with a `$`-free `rep` equals the plain leftmost, non-overlapping substitution |
| Replace.ExpandMatched | src/mcp-server/dist/page-guidelines-server.js:342 | the replacement `$&` inserts the matched text |
| Replace.ScanMatchedIsIdentity | src/mcp-server/dist/page-guidelines-server.js:342 | whatever text was searched before, replacing every match by `$&` leaves the rest of the string as it was |
| Replace.ReplaceAllMatchedIsIdentity | src/mcp-server/dist/page-guidelines-server.js:342 | replacing every match by `$&` gives the string back |
| Replace.DoubleDollarExpands | src/mcp-server/dist/page-guidelines-server.js:342 | for `w` without `$`, a replacement `$$w` inserts one `$` followed by `w` |
| Replace.CleanConcat | src/mcp-server/dist/page-guidelines-server.js:342-352 | two strings in which no occurrence of the pattern can begin stay so when concatenated |
| Replace.CleanExcludes | src/mcp-server/dist/page-guidelines-server.js:342-352 | a string in which no occurrence of the pattern can begin does not include it |
| Replace.LiteralReplaceClean | src/mcp-server/dist/page-guidelines-server.js:342-352 | substitution passes over a leading part in which no occurrence can begin unchanged |
| Replace.ScanAbsent | src/mcp-server/dist/page-guidelines-server.js:342-352 | whatever text was searched before, text that does not include the pattern is left as it was |
| Replace.ReplaceAllAbsent | src/mcp-server/dist/page-guidelines-server.js:342-352 | a string that does not include the pattern is left as it was, whatever the replacement |
| Replace.ScanClean | src/mcp-server/dist/page-guidelines-server.js:342-352 | the scan passes over a part in which no occurrence can begin unchanged, whatever the replacement |
| Replace.ScanKeeps | src/mcp-server/dist/page-guidelines-server.js:342-352 | an occurrence of a text that holds neither end character of the pattern, and whose first character the pattern lacks, survives the replace, whatever the replacement |
| Replace.MatchBeforeOccurrence | src/mcp-server/dist/page-guidelines-server.js:342-352 | an occurrence of the pattern at the front of such a text ends before any later occurrence of that text begins |
| Templates.BasicPagePieces | src/mcp-server/dist/page-guidelines-server.js:98-128 | defines `PAGE_TEMPLATES.basicPage` as literal pieces and `[PageName]` holes, character for character; `PageTitlePiece`, `PageChildrenPiece` and `PageContentStylePiece` locate its markers |
| Templates.ApiTemplatePieces | src/mcp-server/dist/page-guidelines-server.js:129-173 | defines `PAGE_TEMPLATES.apiTemplate` as literal pieces and `[ModelName]`/`[modelName]` holes; `ApiListPiece` and `ApiRequestPiece` locate its markers |
| Templates.HookTemplatePieces | src/mcp-server/dist/page-guidelines-server.js:174-221 | defines `PAGE_TEMPLATES.hookTemplate` as literal pieces and `[ModelName]`/`[modelName]` holes; `HookQueryPiece` locates its markers |
| Templates.BasicPage | src/mcp-server/dist/page-guidelines-server.js:98-128 | defines the page template string as the rendering of its pieces; `PageTemplateFilled` and `GeneratedPagePasses` state what the generator makes of it |
| Templates.ApiTemplate | src/mcp-server/dist/page-guidelines-server.js:129-173 | defines the api template string as the rendering of its pieces; `ModelTemplateFilled` and `GeneratedApiPasses` state what the generator makes of it |
| Templates.HookTemplate | src/mcp-server/dist/page-guidelines-server.js:174-221 | defines the hook template string as the rendering of its pieces; `ModelTemplateFilled` and `GeneratedHookPasses` state what the generator makes of it |
| Templates.ReplaceModel | src/mcp-server/dist/page-guidelines-server.js:345-352 | defines the two chained replaces of the api and hook templates, `[ModelName]` first and then `[modelName]` over the result; its properties are in `ModelTemplateFilled`, `ModelMarker` and `ModelPlaceholdersReplaced` |
| Templates.UnknownKindMessage | src/mcp-server/dist/page-guidelines-server.js:355 | defines the message of the unknown-template-type error; `GenerateTemplate` and `Server.UnknownTemplateType` state when it is thrown |
| Templates.Token | src/mcp-server/dist/page-guidelines-server.js:342-352 | every placeholder is bracketed and holds no `[` after the first character |
| Templates.TokensDiffer | src/mcp-server/dist/page-guidelines-server.js:346-347 | different placeholders differ in their second character, so `[ModelName]` and `[modelName]` never match each other |
| Templates.Plug | src/mcp-server/dist/page-guidelines-server.js:342-352 | filling a slot keeps the number of pieces, leaves no hole of that slot, and keeps every other piece |
| Templates.RenderPlug | src/mcp-server/dist/page-guidelines-server.js:342-352 | rendering the filled pieces is the template text with each hole of the slot replaced by the value |
| Templates.TokenClean | src/mcp-server/dist/page-guidelines-server.js:346-352 | no occurrence of one placeholder can begin inside another |
| Templates.FragmentClean | src/mcp-server/dist/page-guidelines-server.js:98-221 | no placeholder can begin inside a piece of template text |
| Templates.ShowClean | src/mcp-server/dist/page-guidelines-server.js:98-221 | no occurrence of a placeholder can begin in any piece but one of its own holes |
| Templates.LiteralReplaceFill | src/mcp-server/dist/page-guidelines-server.js:342-352 | substituting a placeholder in a rendered template fills exactly its holes |
| Templates.ReplaceFillsHoles | src/mcp-server/dist/page-guidelines-server.js:342-352 | `replace(/\[X\]/g, v)` on a rendered template, for `v` without `$`, fills exactly the holes of `X` and leaves every text piece as it was |
| Templates.FillClean | src/mcp-server/dist/page-guidelines-server.js:342-352 | after filling the only slot a placeholder has with a value in which it cannot begin, no occurrence of it can begin |
| Templates.FillKeepsText | src/mcp-server/dist/page-guidelines-server.js:342-352 | filling keeps every substring of every literal piece |
| Templates.FillHole | src/mcp-server/dist/page-guidelines-server.js:342-352 | the value filled into a hole is in the filled-in template |
| Templates.ReplaceKeepsText | src/mcp-server/dist/page-guidelines-server.js:342-352 | whatever text was searched before, the scan over the rendered pieces keeps every substring of every literal piece, whatever the replacement |
| Templates.ReplaceAllKeepsText | src/mcp-server/dist/page-guidelines-server.js:342-352 | `replace(/\[X\]/g, v)` keeps every substring of every literal piece, for every `v`, `$` patterns included |
| Templates.PageTitlePiece | src/mcp-server/dist/page-guidelines-server.js:108 | the page template holds the text `title: null` |
| Templates.PageChildrenPiece | src/mcp-server/dist/page-guidelines-server.js:109 | the page template holds the text `children: <div className="h-0 w-0" />` |
| Templates.PageContentStylePiece | src/mcp-server/dist/page-guidelines-server.js:110 | the page template holds the text `childrenContentStyle` |
| Templates.ApiListPiece | src/mcp-server/dist/page-guidelines-server.js:132 | the api template holds the text `ListParams` |
| Templates.ApiRequestPiece | src/mcp-server/dist/page-guidelines-server.js:148 | the api template holds the text `request('/` |
| Templates.HookQueryPiece | src/mcp-server/dist/page-guidelines-server.js:174 | the hook template holds the text `useQuery` |
| Templates.ApiModelHoles | src/mcp-server/dist/page-guidelines-server.js:129-173 | the api template has a `[ModelName]` hole (piece 10) and a `[modelName]` hole (piece 42) |
| Templates.HookModelHoles | src/mcp-server/dist/page-guidelines-server.js:174-221 | the hook template has a `[ModelName]` hole (piece 12) and a `[modelName]` hole (piece 10) |
| Templates.GenerateTemplate | src/mcp-server/dist/page-guidelines-server.js:336-356 | a template is produced exactly for `page`, `api` and `hook`; any other type is the error `未知的模板类型: <type>` |
| Templates.PageTemplateFilled | src/mcp-server/dist/page-guidelines-server.js:338-343 | for a name without `$`, the page is the page template with every `[PageName]` replaced by the capitalised name and the rest unchanged |
| Templates.ModelTemplateFilled | src/mcp-server/dist/page-guidelines-server.js:338-352 | for a name without `$` or `[`, the api and hook code is the template with `[ModelName]` replaced by the capitalised name, `[modelName]` by the camel name, and the rest unchanged |
| Templates.ModelMarker | src/mcp-server/dist/page-guidelines-server.js:345-352 | for every name, the api and hook replaces keep each substring of a literal piece that is non-empty, holds no bracket and starts with a letter missing from `[modelName]` |
| Templates.ModelNamesAppear | src/mcp-server/dist/page-guidelines-server.js:338-352 | for a name without `$` or `[`, a template with a hole of each kind holds both the capitalised and the camel-case name after the two replaces |
| Templates.ApiNamesAppear | src/mcp-server/dist/page-guidelines-server.js:338-347 | for a name without `$` or `[`, the generated api code holds the name both capitalised and in camel case |
| Templates.HookNamesAppear | src/mcp-server/dist/page-guidelines-server.js:338-352 | for a name without `$` or `[`, the generated hook code holds the name both capitalised and in camel case |
| Templates.PagePlaceholderReplaced | src/mcp-server/dist/page-guidelines-server.js:342 | for a name without `$` or `[`, no `[PageName]` is left in the page |
| Templates.ModelPlaceholdersReplaced | src/mcp-server/dist/page-guidelines-server.js:345-352 | for a name without `$` or `[`, neither `[ModelName]` nor `[modelName]` is left in the code |
| Templates.NoPlaceholderSurvives | src/mcp-server/dist/page-guidelines-server.js:336-353 | for every template type and a name without `$` or `[`, none of that template's placeholders survives |
| Templates.MatchPatternNameKeepsPlaceholder | src/mcp-server/dist/page-guidelines-server.js:342 | the name `$&` generates the page template unchanged, `[PageName]` included |
| Validation.Passes | src/mcp-server/dist/page-guidelines-server.js:372-400 | defines a check passing: the code includes at least one of its substrings; its properties are in `PassesOne`, `PassesTwo` and `PassesFour` |
| Validation.Issues | src/mcp-server/dist/page-guidelines-server.js:368-403 | defines the messages of the failing checks, in the checks' order; its properties are in `IssueIffFails`, `IssuesBounded`, `NotAmongIssues` and `CheckStructure` |
| Validation.Validate | src/mcp-server/dist/page-guidelines-server.js:366-406 | defines the validation reply, the report of the issues of the type's checks; its properties are in `Report`, `AllPass`, `UncheckedKindsPass` and the `Generated*Passes` lemmas |
| Validation.Checks | src/mcp-server/dist/page-guidelines-server.js:369-403 | only `page`, `api` and `hook` code is checked at all |
| Validation.CheckStructure | src/mcp-server/dist/page-guidelines-server.js:368-403 | the issues pushed one check at a time are the messages of the checks that fail, in order |
| Validation.PassesOne | src/mcp-server/dist/page-guidelines-server.js:372-380 | a one-word check passes exactly when the code includes the word |
| Validation.PassesTwo | src/mcp-server/dist/page-guidelines-server.js:399 | a two-word check passes exactly when the code includes one of the words |
| Validation.PassesFour | src/mcp-server/dist/page-guidelines-server.js:384-387 | a four-word check passes exactly when the code includes one of the words |
| Validation.Report | src/mcp-server/dist/page-guidelines-server.js:404-406 | the result is the success line exactly when there are no issues, and otherwise the header followed by the issues one per line |
| Validation.IssuesBounded | src/mcp-server/dist/page-guidelines-server.js:368-403 | there are never more issues than checks |
| Validation.IssueIffFails | src/mcp-server/dist/page-guidelines-server.js:368-403 | when the checks' messages are pairwise distinct (as `Validation.DistinctMessages` shows for every type), a check's message is among the issues exactly when that check fails |
| Validation.NotAmongIssues | src/mcp-server/dist/page-guidelines-server.js:368-403 | only check messages are ever reported |
| Validation.DistinctMessages | src/mcp-server/dist/page-guidelines-server.js:373-400 | the messages of one type's checks are all different |
| Validation.EmptyPageIssues | src/mcp-server/dist/page-guidelines-server.js:370-381 | empty page code has all three page issues, in order, and the result text lists them under the header |
| Validation.HookWithoutUse | src/mcp-server/dist/page-guidelines-server.js:396-401 | hook code without `use` gets the naming issue and then the React Query advice |
| Validation.UncheckedKindsPass | src/mcp-server/dist/page-guidelines-server.js:369-406 | code of any other type succeeds, whatever it is |
| Validation.AllPass | src/mcp-server/dist/page-guidelines-server.js:404-405 | when every check passes there is no issue |
| Validation.GeneratedPagePasses | src/mcp-server/dist/page-guidelines-server.js:342 | a generated page passes page validation, for every name |
| Validation.ApiMarkers | src/mcp-server/dist/page-guidelines-server.js:345-347 | generated api code holds `List` and `request(`, whatever the name |
| Validation.GeneratedApiPasses | src/mcp-server/dist/page-guidelines-server.js:345-347 | generated api code passes api validation, whatever the name |
| Validation.HookMarkers | src/mcp-server/dist/page-guidelines-server.js:350-352 | generated hook code holds `use` and `useQuery`, whatever the name |
| Validation.GeneratedHookPasses | src/mcp-server/dist/page-guidelines-server.js:350-352 | generated hook code passes hook validation, whatever the name |
| Naming.Words | src/mcp-server/dist/page-guidelines-server.js:419 | there is at least one word, and every word is lower-case without whitespace |
| Naming.MainWord | src/mcp-server/dist/page-guidelines-server.js:420 | the main word is never empty, and it is the first word when that is not empty |
| Naming.MainWordFallback | src/mcp-server/dist/page-guidelines-server.js:419-420 | the main word is `item` exactly when the description is empty, starts with whitespace, or starts with the word `item` |
| Naming.LeadingBlankKeepsEmptyWord | src/mcp-server/dist/page-guidelines-server.js:419-446 | the description `" user"` splits into `""` and `user`, so its first api name is `itemList` and its file name is `-user` |
| Naming.PascalCase | src/mcp-server/dist/page-guidelines-server.js:433-435 | defines `words.map(w => capitalised w).join("")`; its properties are in `LowerPascalCase`, `PascalCaseNoSpace` and `ComponentNameDropsSpaces` |
| Naming.Suggestions | src/mcp-server/dist/page-guidelines-server.js:422-448 | five names for `api`, one for `component`, `hook` and `file`, none for any other type |
| Naming.Bullets | src/mcp-server/dist/page-guidelines-server.js:453-455 | one bullet line per suggestion, `• ` followed by it |
| Naming.NamingReply | src/mcp-server/dist/page-guidelines-server.js:453-455 | defines the naming reply, the description and type in the header line followed by the bulleted suggestions; `UnlistedTypeReply` states it for unlisted types |
| Naming.ApiSuggestionsShape | src/mcp-server/dist/page-guidelines-server.js:423-430 | the api names are the main word with `List`, then `add`, `update`, `del` and `get…ById` around the capitalised main word; an empty description gives `itemList` … `getItemById` |
| Naming.HookIsUseComponent | src/mcp-server/dist/page-guidelines-server.js:432-444 | the hook name is `use` followed by the component name |
| Naming.EmptyDescriptionNames | src/mcp-server/dist/page-guidelines-server.js:432-447 | an empty description gives the empty file and component names and the hook name `use` |
| Naming.FileNameReplacesRuns | src/mcp-server/dist/page-guidelines-server.js:445-446 | the file name is the lower-cased description with each whitespace run replaced by `-` |
| Naming.LowerPascalCase | src/mcp-server/dist/page-guidelines-server.js:433-435 | lower-casing the Pascal-case name of lower-case words gives the words run together |
| Naming.ComponentNameDropsSpaces | src/mcp-server/dist/page-guidelines-server.js:432-436 | lower-cased, the component name is the lower-cased description with its whitespace removed |
| Naming.PascalCaseNoSpace | src/mcp-server/dist/page-guidelines-server.js:433-435 | the Pascal-case name of words without whitespace holds no whitespace |
| Naming.ComponentNameIsOneWord | src/mcp-server/dist/page-guidelines-server.js:432-444 | component and hook names hold no whitespace |
| Naming.FileNameOfWords | src/mcp-server/dist/page-guidelines-server.js:419-446 | lower-case words without whitespace, none empty but possibly the first and the last, joined by single blanks give those words joined by `-` as the file name |
| Naming.LowerJoinLowered | src/mcp-server/dist/page-guidelines-server.js:419 | lower-case words joined by blanks are unchanged by lower-casing |
| Naming.UnlistedTypeReply | src/mcp-server/dist/page-guidelines-server.js:448-455 | for any other type the reply is the header line alone, with the description and the type in it |
| Guidelines.Select | src/mcp-server/dist/page-guidelines-server.js:308-325 | a category naming a section selects that section alone; any other category selects the whole table |
| Guidelines.Keys | src/mcp-server/dist/page-guidelines-server.js:13-95 | the keys of the selected table, one per section and in order |
| Guidelines.SelectByCategory | src/mcp-server/dist/page-guidelines-server.js:309-322 | each section's category selects that section and its one key |
| Guidelines.AllSectionsDistinct | src/mcp-server/dist/page-guidelines-server.js:13-95 | the whole table has four distinct keys and holds every section |
| Guidelines.DefaultSelectsAll | src/mcp-server/dist/page-guidelines-server.js:323-324 | `all` and every other unlisted category select `headerConfig`, `apiGuidelines`, `componentGuidelines` and `hookGuidelines`, in that order |
| Server.UnknownToolMessage | src/mcp-server/dist/page-guidelines-server.js:461 | defines the message of the unknown-tool error; `Handle` states when it is thrown |
| Server.Interpolated | src/mcp-server/dist/page-guidelines-server.js:355 | defines `${args[key]}`, with `undefined` for a missing argument; `UnknownTemplateType` and `ValidateUncheckedType` state its effect |
| Server.Handle | src/mcp-server/dist/page-guidelines-server.js:302-463 | an unknown tool name is the error `未知的工具: <name>`, whatever the arguments; a known tool without arguments fails on reading them; the only `Error`s it throws itself are that one and the unknown-template-type message of generation |
| Server.CallTool | src/mcp-server/dist/page-guidelines-server.js:302-463 | the handler run as a `switch`, with the issues pushed one at a time, answers exactly as `Handle` does |
| Server.GeneratedCodeValidates | src/mcp-server/dist/page-guidelines-server.js:335-415 | a template the server generates passes the server's validation of the same type, for every type it generates and every name |
| Server.GenerateNeedsName | src/mcp-server/dist/page-guidelines-server.js:336-338 | generation without a name fails on reading it, before the type is looked at |
| Server.UnknownTemplateType | src/mcp-server/dist/page-guidelines-server.js:340-355 | an unknown or missing template type is an error naming it, with `undefined` for a missing one |
| Server.ValidateUncheckedType | src/mcp-server/dist/page-guidelines-server.js:366-406 | validation with an unchecked or missing type succeeds, with or without code |
| Server.GuidelinesDefaultToAll | src/mcp-server/dist/page-guidelines-server.js:306 | without a type, the guidelines are the whole table |

## Left out

- The MCP transport, the `Server` object, `ListToolsRequestSchema`, `main` and the start-up logging. They are I/O and library code.
- The reply envelope. A reply is modelled as the text of its one content item, so `content: [{ type: "text", … }]` is not modelled.
- The guideline contents. Their description strings are not modelled, and `JSON.stringify(guidelines, null, 2)` is not modelled either. A guidelines reply is modelled as the heading line and the keys of the selected table, in order.
- Argument values that are not strings. The tool schemas declare every argument a string. A missing argument is modelled, and reading a property of one is the `TypeError` it raises.
- Unicode casing. `toUpperCase` and `toLowerCase` are modelled on ASCII letters only. Other characters are left unchanged.
- The `$<name>` and `$1`… replacement patterns. The placeholder patterns have no groups, so `replace` inserts these literally, and so does the model.
- Templates.ModelTemplateFilled: stated only for names without `$` or `[`, because for other names the equality with `Fill` does not hold. A `$` in the name is read as a replacement pattern. A `[` in the Pascal name can form a new `[modelName]`, which the second `replace` then rewrites.
- Templates.ModelNamesAppear: stated only for names without `$` or `[`. For a name such as `$&` the replaces write the placeholders back, so the name itself need not appear.
- Templates.ApiNamesAppear: stated only for names without `$` or `[`, for the reason given for `Templates.ModelNamesAppear`.
- Templates.HookNamesAppear: stated only for names without `$` or `[`, for the reason given for `Templates.ModelNamesAppear`.
- Templates.ModelPlaceholdersReplaced: stated only for names without `$` or `[`, because a name such as `$&` writes the placeholder back (`Templates.MatchPatternNameKeepsPlaceholder` shows this for the page). The markers validation looks for survive for every name (`Templates.ModelMarker`).
- Templates.PagePlaceholderReplaced: stated only for names without `$` or `[`. With a `$`, the source can keep the placeholder: `Templates.MatchPatternNameKeepsPlaceholder` shows it for the name `$&`.
- Templates.NoPlaceholderSurvives: stated only for names without `$` or `[`, for the same reason as the two lemmas it combines.
- Templates.PageTemplateFilled: this is proved for names without `$`. For every name, `Validation.GeneratedPagePasses` still holds.
