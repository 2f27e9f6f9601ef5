# UiPath workflow summary, modelled in Dafny

UiPathWorkflowToMarkdown reads the XAML workflow files of a UiPath project and writes a
Markdown outline of them. This model covers the two core steps.

- **Workflow extraction** (`app/parser.py`). Each XAML document is an already parsed
  element tree (`Parser.Element`). Two recursive walks over that tree fill caller-owned
  lists in document order:
  - the *key activities*: the label of every element whose local tag name is one of
    eight activity names;
  - the *invoked workflows*: the call target of every `InvokeWorkflowFile` element.

  `parse_workflow` gathers both into a `WorkflowData` record, together with the
  relative path and a display name. `parse_project` builds one record per file, keyed
  by the relative path.
- **Markdown rendering** (`app/markdown_gen.py`). `generate_markdown` expands a
  workflow depth first into bullet lines. It keeps a mutable `visited` set, so cycles
  terminate and a workflow is expanded at most once. `build_markdown` picks the root
  workflows (those nobody invokes, or all of them when every one is invoked). It renders
  the roots in ascending order, each followed by a blank line, below the title
  `# UiPath Project Summary`. It then returns the stripped join plus one newline.

How the modules split the work:

- `Parser` models the collectors as imperative methods. They append to a `StringList`
  object, and each is proved against a recursive specification function.
  `Parser.KeyActivitiesInDocumentOrder` and `Parser.InvokedWorkflowsInDocumentOrder`
  restate those functions independently, as a filter and map over the pre-order of the
  tree.
- `MarkdownGen` separates the walk from the text. `Expand` and `ExpandAll` compute the
  sequence of visits (path, level) and the visited set. `Render` turns visits into
  lines. `GenerateMarkdown` is the imperative renderer: it threads a `PathSet` object by
  reference and is proved equal to `Render` of `Expand`.
- `Text`, `Paths`, `Ordering` and `Sequences` model the Python built-ins the core
  relies on: `str.split`/`join`/`strip`, `pathlib`'s `name`/`stem`, string ordering and
  `sorted`.

**The visited set is per root.** `build_markdown` creates one `visited` set
(app/markdown_gen.py:64) and passes it to every root, but `visited = visited or set()`
(app/markdown_gen.py:22) replaces an empty set with a fresh one. So the set that
`build_markdown` holds is never filled, each root is expanded from an empty set, and a
workflow reachable from two roots is written under both. The model follows the code.

`MarkdownGen.GenerateMarkdown` states that an empty set passed in stays empty.
`MarkdownGen.BuildMarkdown` keeps it empty as a loop invariant.
`MarkdownGen.RootSectionShowsReachable` characterises each root's section.

## Model

| member | source | states |
|---|---|---|
| Text.IndexOf | app/parser.py:35-36 | The index of the first `}` in the tag, or None exactly when the tag has none. |
| Parser.LocalName | app/parser.py:33-37 | `get_local_name`: the tag with everything up to its first `}` dropped. Its properties are stated by `Parser.LocalNameIsSuffix`. |
| Parser.LocalNameIsSuffix | app/parser.py:33-37 | The local name is a suffix of the tag. It is the whole tag when the tag has no `}`, and otherwise exactly the text after the first `}`. |
| Parser.DisplayNameOr | app/parser.py:56 | `get("DisplayName") or fallback`: the DisplayName attribute when it is present and non-empty, the fallback otherwise. This gives a key activity's label, with the local name as fallback. |
| Parser.Label | app/parser.py:56 | The text appended for a key activity. It is `Parser.DisplayNameOr` of the element, with the element's local name as the fallback. |
| Parser.Target | app/parser.py:65-69 | The `or` chain over WorkflowFileName, WorkflowFile and DisplayName. What it yields is stated by `Parser.TargetPriority`. |
| Parser.TargetPriority | app/parser.py:65-70 | The call target is truthy exactly when one of WorkflowFileName, WorkflowFile and DisplayName is non-empty. It is then the first non-empty one in that order. |
| Parser.Preorder | app/parser.py:57-58 | Document order starts with the element itself. |
| Parser.KeyActivities | app/parser.py:52-58 | What `_collect_key_activities` appends for a subtree: the element's label when it is a key activity, then its children's activities in order. `Parser.KeyActivitiesInDocumentOrder` relates it to the pre-order of the tree. |
| Parser.KeyActivitiesInDocumentOrder | app/parser.py:52-58 | The key activities are the labels of the key-activity elements of the pre-order of the tree: one per matching element, none for others, in document order, and through matched and unmatched elements alike. |
| Parser.KeyActivitiesOfInDocumentOrder | app/parser.py:57-58 | The same for a run of sibling subtrees. |
| Parser.KeyActivitiesOfAppend | app/parser.py:57-58 | The activities of consecutive siblings are the concatenation of theirs. |
| Parser.InvokedWorkflows | app/parser.py:61-73 | What `_find_invoked_workflows` appends for a subtree: the element's target when it is an invocation with one, then its children's targets in order. `Parser.InvokedWorkflowsInDocumentOrder` relates it to the pre-order of the tree. |
| Parser.InvokedWorkflowsInDocumentOrder | app/parser.py:61-73 | The invoked workflows are the targets of the `InvokeWorkflowFile` elements that have one, in document order, with repeats kept. An invocation without a target contributes nothing. |
| Parser.InvokedWorkflowsOfInDocumentOrder | app/parser.py:72-73 | The same for a run of sibling subtrees. |
| Parser.InvokedWorkflowsOfAppend | app/parser.py:72-73 | The targets of consecutive siblings are the concatenation of theirs. |
| Parser.InvocationCountBound | app/parser.py:64-71 | There are never more targets than `InvokeWorkflowFile` elements. |
| Parser.StringList.constructor | app/parser.py:81-82 | A new list is empty. |
| Parser.StringList.Append | app/parser.py:56 | `append` adds exactly one item at the end. |
| Parser.AppendKeyActivity | app/parser.py:54-56 | One element's step appends its label when it is a key activity, and nothing otherwise. The earlier items are kept. |
| Parser.CollectKeyActivities | app/parser.py:52-58 | `_collect_key_activities` keeps the caller's items and appends exactly the key activities of the subtree after them. |
| Parser.AppendTarget | app/parser.py:63-71 | One element's step appends its call target when it is an invocation with one, and nothing otherwise. |
| Parser.FindInvokedWorkflows | app/parser.py:61-73 | `_find_invoked_workflows` keeps the caller's items and appends exactly the invoked workflows of the subtree after them. |
| Paths.Stem | app/parser.py:88 | The stem is a prefix of the name. It drops only the last `.suffix`, and only when that dot is neither first nor last. |
| Parser.ParseWorkflow | app/parser.py:76-95 | The record holds the relative path and the two collectors' outputs from the root. The display name is the root's non-empty DisplayName, or else the file stem. |
| Parser.ParseFrom | app/parser.py:101-104 | The loop of `parse_project` over the remaining files. It stops at the first file that does not parse, and otherwise files each record under its relative path, a later file replacing an earlier one. The `Parser.ParseFrom…` lemmas below state its properties. |
| Parser.ParseFromFailure | app/parser.py:101-104 | The walk over the files fails exactly when some file does not parse. It then fails with the path of the first such file. |
| Parser.ParseFromKeys | app/parser.py:101-104 | A successful walk is keyed by exactly the paths already collected plus those of the files. |
| Parser.ParseFromKeyedByPath | app/parser.py:101-104 | Every record is filed under its own `path`. |
| Parser.ParseFromLastWins | app/parser.py:101-104 | The record under a path is the one built from the last file with that path. |
| Parser.ParseFromKeeps | app/parser.py:101-104 | A path that no remaining file has keeps its record. |
| Parser.ParseProject | app/parser.py:98-105 | The loop of `parse_project` computes the walk over the files from an empty dictionary. |
| Parser.ProjectSummaries | app/parser.py:98-105 | `parse_project` fails exactly when a file does not parse. Otherwise it has one record per relative path, each keyed by its own `path` and built from the last file with that path. |
| MarkdownGen.Indent | app/markdown_gen.py:28 | The prefix is `2 * level` spaces. |
| Paths.Name | app/markdown_gen.py:30 | `Path(p).name` for POSIX paths. `Paths.NameIsLastComponent` states what it yields. |
| Text.Split | app/markdown_gen.py:30 | Splitting yields at least one piece, no piece holds the separator, and joining the pieces restores the string. |
| Paths.NameIsLastComponent | app/markdown_gen.py:30 | `Name` is the last of the path components pathlib keeps (empty and `.` pieces dropped), or "" when there are none. |
| Paths.NameIsComponent | app/markdown_gen.py:30 | A name never holds a `/` and is never `.`. |
| Paths.NameBelowDirectory | app/markdown_gen.py:30 | A plain file name joined below any directory is that path's name. |
| MarkdownGen.Header | app/markdown_gen.py:27-42 | The lines `generate_markdown` writes for the workflow itself, before any invoked workflow. The four lemmas below characterise them. |
| MarkdownGen.HeaderLines | app/markdown_gen.py:27-42 | A workflow's block has one to four lines, and all are indented by its level. It opens with the bullet, then has one more line for each of the summary, the key activities and the invocations that the workflow has. A dangling target, which has no record, gets no key-activities or `Invokes:` line. |
| MarkdownGen.HeaderSummaryLine | app/markdown_gen.py:33-34 | Some line of the block is a summary line (`  > ` after the indentation) exactly when the summaries are non-empty and hold the path. That line is the second one and carries the summary verbatim. |
| MarkdownGen.HeaderKeyActivitiesLine | app/markdown_gen.py:36-39 | Some line of the block is a key-activities line exactly when the workflow's record lists key activities. That line follows the bullet and any summary line, and joins the names with `, `. |
| MarkdownGen.HeaderInvokesLine | app/markdown_gen.py:41-42 | The block ends with the indented `  - Invokes:` line exactly when the workflow's record lists invoked workflows. Otherwise no line of the block carries it. |
| MarkdownGen.WriteHeader | app/markdown_gen.py:27-42 | The appends for the workflow itself write exactly `Header`: the bullet, then a summary line, a key-activities line and an `Invokes:` line, each present exactly under the conditions the three lemmas above state. |
| MarkdownGen.NoDescriptionsLikeEmpty | app/markdown_gen.py:33-34 | No summaries and an empty dictionary of summaries render identically. |
| MarkdownGen.Expand | app/markdown_gen.py:22-52 | The walk only grows the visited set. An already visited path yields nothing and changes nothing. Otherwise the path is marked and is the first visit, at the given level. |
| MarkdownGen.ExpandAll | app/markdown_gen.py:43-52 | Expanding the invoked workflows in list order only grows the visited set. |
| MarkdownGen.ExpandVisitsOnce | app/markdown_gen.py:22-25 | Within one walk no workflow is visited twice, and none already visited before it is revisited. What the walk marks is exactly what it visits. |
| MarkdownGen.ExpandAllVisitsOnce | app/markdown_gen.py:43-52 | The same for the loop over the invoked workflows, so a duplicate target renders nothing after its first expansion. |
| MarkdownGen.ExpandClosed | app/markdown_gen.py:41-52 | Every workflow invoked by a visited, parsed workflow ends up marked. |
| MarkdownGen.ExpandAllClosed | app/markdown_gen.py:43-52 | The same for the loop, and every child of the loop ends up marked. |
| MarkdownGen.ExpandOnlyReachable | app/markdown_gen.py:41-52 | Everything a walk newly marks is reached from its start through invocations. |
| MarkdownGen.ExpandAllOnlyReachable | app/markdown_gen.py:43-52 | Everything the loop newly marks is reached from one of the children. |
| MarkdownGen.RootWalkMarksReachable | app/markdown_gen.py:22-52 | From an empty visited set, a walk marks exactly the workflows its start reaches, dangling targets included. |
| MarkdownGen.Render | app/markdown_gen.py:27-52 | The lines of a sequence of visits: each visit's header block, in order. The walk decides which visits there are, so that the lines of one `generate_markdown` call are `Render` of the visits of `Expand`. |
| MarkdownGen.RenderAppend | app/markdown_gen.py:44-52 | Extending with the lines of two runs of visits writes the lines of the first, then those of the second. |
| MarkdownGen.PathSet.constructor | app/markdown_gen.py:64 | A new visited set is empty. |
| MarkdownGen.PathSet.Add | app/markdown_gen.py:25 | `add` marks exactly the given path. |
| MarkdownGen.OrNewSet | app/markdown_gen.py:22 | `visited or set()` is the given set when it is non-empty. A missing or empty set gives a fresh, empty one. |
| MarkdownGen.GenerateMarkdown | app/markdown_gen.py:9-53 | The lines are those of the walk from the received set. A non-empty set passed in ends as the walk's visited set. An empty one is left empty. |
| MarkdownGen.ExpandInvoked | app/markdown_gen.py:43-52 | The loop over the invoked workflows, all sharing one non-empty set, writes the lines of expanding them in list order at the given level. The set ends as that expansion's visited set. |
| MarkdownGen.Roots | app/markdown_gen.py:58-61 | The parsed workflows that no workflow invokes, or all parsed workflows when that set is empty. `MarkdownGen.RootsAreUninvoked` states its properties. |
| MarkdownGen.RootsAreUninvoked | app/markdown_gen.py:58-61 | A root is a parsed workflow nobody invokes, unless every workflow is invoked, and then every workflow is a root. There are no roots exactly when there are no workflows. |
| Ordering.SortedSet | app/markdown_gen.py:66 | `sorted` of distinct strings holds each exactly once, in strictly ascending Python string order. |
| MarkdownGen.Sections | app/markdown_gen.py:66-76 | The lines the loop over the roots appends: for each root in the given order, the lines of its walk from an empty visited set, then a blank line. |
| MarkdownGen.RootSectionShowsReachable | app/markdown_gen.py:64-75 | Each root's section has a bullet for exactly the workflows that root reaches, so a workflow reachable from two roots appears under both. |
| MarkdownGen.Document | app/markdown_gen.py:63-78 | The document: the stripped join, plus a newline, of the title and the sections of the sorted roots. `MarkdownGen.DocumentShape` and `MarkdownGen.EmptyProjectDocument` state its properties. |
| MarkdownGen.BuildMarkdown | app/markdown_gen.py:56-78 | The document is the stripped join, plus a newline, of the title and, for each root in ascending order, its section and a blank line. The shared set stays empty throughout. |
| Text.Join | app/markdown_gen.py:78 | `sep.join(parts)`: the parts with the separator between consecutive ones. Joining the pieces of `Text.Split` with their separator restores the string. |
| Text.Strip | app/markdown_gen.py:78 | `strip()`: `lstrip()`, then `rstrip()`. Its properties are stated by the three lemmas below. |
| Text.StripTrimsBothEnds | app/markdown_gen.py:78 | `strip()` leaves no whitespace at either end, and leaves nothing exactly when the text is all whitespace. |
| Text.TrimStartRemovesSpace | app/markdown_gen.py:78 | `lstrip()` keeps a suffix and drops only whitespace. |
| Text.TrimEndRemovesSpace | app/markdown_gen.py:78 | `rstrip()` keeps a prefix and drops only whitespace. |
| Text.StripAfterVisibleHead | app/markdown_gen.py:78 | Stripping text that opens with a head visible at both ends trims only the end of what follows. |
| Text.JoinedTextShape | app/markdown_gen.py:78 | Lines led by such a head join and strip to text that starts with the head on a line of its own and ends in one newline right after a visible character. |
| MarkdownGen.DocumentShape | app/markdown_gen.py:63-78 | The document starts with `# UiPath Project Summary` on a line of its own and ends in exactly one newline, after a visible character. |
| MarkdownGen.EmptyProjectDocument | app/markdown_gen.py:56-78 | A project without workflows renders as the title and a newline. |

## Left out

- `safe_extract_archive` (app/parser.py:40-49): archive extraction and path resolution are file-system I/O.
- `load_config` (app/parser.py:108-115) is a thin wrapper over a JSON parser. `app/llm.py`, `app/main.py` and the front end do network, HTTP and UI work and are not part of this model.
- XML parsing (app/parser.py:78): each file arrives as a `SourceFile` holding its relative path and its parsed root, or `None` when it is not well-formed. The exception that `ElementTree.parse` raises is modelled as a `Failure` carrying that file's path. Other I/O errors are not modelled. Element text, tails and namespaces beyond the tag prefix are not represented.
- Directory walk (app/parser.py:101): the files come as a sequence in whatever order `rglob` yields them. That order is an input, not modelled.
- Parser.ParseWorkflow: takes the path relative to the project directory instead of computing it with `relative_to`. The stem is read from that relative path, whose last component is the file's own name.
- Paths.Name: POSIX `pathlib` only. A backslash is an ordinary character, as it is for `PurePosixPath`. Windows path flavour is not modelled.
- MarkdownGen.GenerateMarkdown: `level` is a natural number. A negative level is not modelled; Python would render it with no indent, and every call in the source passes 1 or more.
- MarkdownGen.Expand: the visited set is a value the walk threads. The imperative `GenerateMarkdown` shares one `PathSet` object by reference, but aliasing with other objects is not modelled.
- Logic-flow outlines, branch labels and sequence diagrams do not exist in these source files. `WorkflowData` has four fields and `generate_markdown` writes no such lines, so they are not modelled.
