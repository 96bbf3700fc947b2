# gh-actionarmor, modelled in Dafny

gh-actionarmor is a GitHub CLI extension that lints GitHub Actions workflow
files. For every step whose `uses:` names an action, it does four things:

- It parses the reference `owner/repo[/path]@ref`.
- It applies a fixed chain of rules: local reusable workflows, official
  creators, allowlists, verified creators, archived repositories, verified
  organizations, and pinning by commit SHA.
- It asks GitHub about tags, archive state and organizations.
- It reports at most one error per step.

The rules follow a per-workflow parameter set. That set is built from a
config file (`.github/actionarmor.yaml`) and the command-line flags, and it is
cached per config file. The model's cache takes its key function as a
parameter (`Run.ConfigCache.key`). The key the source computes is
`Run.HashAsWritten`, under which every project's `.github/actionarmor.yaml`
gets the same key. `Run.Hash` is the key the comment on the source's `Hash`
describes: the config's source and its own path. The contracts of the cache
hold for any key function, and "Findings" compares the two.

This project models that core:

| file | module | models |
|---|---|---|
| `wrappers.dfy` | `Wrappers` | `Option` and `Result` |
| `text.dfy` | `Text` | The Go string functions the core relies on (`TrimSpace`, `Split`, `Join`, `HasPrefix`), the whitespace regular expression `[\r\n\s]+`, rune-based truncation, and UTF-8 byte length |
| `consts.dfy` | `Consts` | `pkg/linter/const.go`: error kinds, official creators, actions by verified creators |
| `parser.dfy` | `Parser` | `pkg/linter/parser.go`: `Action` and `ParseActionUses` |
| `params.dfy` | `Params` | `WorkflowLintParams` (a class whose fields the options update in place), the `With*` options, `NewWorkflowLintParams`, `GetOptions`, `GetHashAllowlist`, and the trimming in `toLintParams` |
| `engine.dfy` | `Engine` | `lintJobUses` and the helpers it calls (`shortenHash`, `replaceNewlines`, `truncateString`, `isAllowlisted`, `isVerifiedCreator`, `checkVerifiedOrg`, `resolveGitTagNamesFromSha`, `RelPath`, `newLintError`) |
| `pipeline.dfy` | `Pipeline` | `LintWorkflowContext` and `LintWorkflowFilesContext`: one result per step, then the fold that drops runtime errors |
| `run.dfy` | `Run` | `pkg/cmd/run.go` (flag options, the config cache, `makeLintParams`, `ToWorkflowLintInfo`), `ReadLintOptions`, and the config hash |

The GitHub GraphQL API, the tag resolver, `git`, `filepath.Rel` and
actionlint's `Pos.String` are outside the model. They appear as fields of the
`Engine.Remote` record and as parameters of the methods in `Run`. Each one is
an arbitrary total function, so every property holds whatever they answer.
Reading and decoding the config file is likewise a parameter
(`Run.ConfigRead`).

## Model

| member | source | states |
|---|---|---|
| Text.TrimSpace | pkg/linter/parser.go:50 | The result is the contiguous middle of the input, begins and ends with a non-space, and everything cut off before and after it is white space |
| Text.TrimSpaceUnchanged | pkg/linter/parser.go:50 | A string with no white space at either end is left unchanged |
| Text.TrimSpaceIdempotent | pkg/linter/linter.go:811 | Trimming twice is trimming once |
| Text.SplitCount | pkg/linter/parser.go:51-52 | `strings.Split` yields exactly one piece more than the number of separators |
| Text.SplitPartsFree | pkg/linter/parser.go:51-59 | No piece of a split contains the separator |
| Text.SplitJoin | pkg/linter/parser.go:51-59 | Joining the pieces with the separator gives back the input |
| Text.SplitAt | pkg/linter/parser.go:51-59 | A prefix free of the separator comes out as the first piece, followed by the pieces of the rest |
| Text.SplitFirstIsPrefix | pkg/linter/parser.go:59-67 | The first piece, and the first two pieces with their separator, are prefixes of the input |
| Text.ReplaceNewlines | pkg/linter/linter.go:40-56 | Empty iff the input is empty; every character is a space or not in `[\r\n\s]`; no two spaces are adjacent; the first character is kept or becomes a space |
| Text.ReplaceNewlinesVisible | pkg/linter/linter.go:40-56 | The characters outside `[\r\n\s]` are kept, all of them and in order: removing white space from the result gives the input without its white space |
| Text.ReplaceNewlinesFirstRun | pkg/linter/linter.go:40-56 | Text before the first run of white space is kept as it is, and that whole run becomes exactly one space |
| Text.ReplaceNewlinesLast | pkg/linter/linter.go:40-56 | The result ends in a space iff the input ends in white space |
| Text.Truncate | pkg/linter/linter.go:58-65 | A string within the limit is kept; a longer one becomes its first `n` runes followed by `...` |
| Text.Utf8LenAtLeastRunes | pkg/linter/linter.go:791 | Go's byte length lies between the number of runes and four times that number |
| Text.Utf8LenAscii | pkg/linter/linter.go:791 | For ASCII text, byte length equals rune count |
| Consts.KindsDistinct | pkg/linter/const.go:6-11 | The six error kinds, including the two written as literals at their use sites, are pairwise distinct |
| Parser.ParseActionUses | pkg/linter/parser.go:49-70 | No contract of its own: `Parser.ParseOutcome` and `Parser.ParseFields` state what it returns |
| Parser.ParseOutcome | pkg/linter/parser.go:49-70 | Parsing succeeds iff the trimmed value has exactly one `@` and a `/` before it; otherwise it fails with the message of the first check that rejects it |
| Parser.ParseFields | pkg/linter/parser.go:49-70 | On success, ID + `@` + ref is the trimmed input, neither contains `@`, owner and name contain no `/`, and the ID is `owner/name` or continues with `/` after it, so the name is the ID's second segment |
| Parser.SegmentsOfID | pkg/linter/parser.go:59-67 | An ID with at least two `/`-separated segments is its first two segments joined by `/`, alone or followed by `/` |
| Parser.ParseThenString | pkg/linter/parser.go:21-23 | For an ID with exactly one `/`, `String()` of the parsed action is the trimmed input |
| Parser.ParseRoundTrip | pkg/linter/parser.go:21-70 | `owner/name@ref` parses into its parts and prints back unchanged |
| Parser.PinnedExamples | pkg/linter/parser_test.go:141-171 | Pinning depends on the ref alone; 40-hex refs are pins; tags and branches are not |
| Parser.LocalReusableExamples | pkg/linter/parser_test.go:103-139 | The five rows of the test table: only the `./.github/workflows/` ID is a local reusable workflow |
| Params.FlagOption | pkg/linter/linter.go:189-229 | The option built for flag `f` and value `v` sets exactly `f` to `v` |
| Params.Params.GetHashAllowlist | pkg/linter/linter.go:361-371 | An entry is found iff the action ID or the repository ID is a key; the action ID wins; otherwise the repository ID's entry |
| Params.Params.GetOptions | pkg/linter/linter.go:310-350 | Applying the returned options to a zero struct rebuilds the parameters, with allowlists freed of duplicates |
| Params.Merged | pkg/linter/linter.go:231-253 | No contract of its own: `Params.MergedContents`, `MergedNoDup`, `MergedPresent`, `MergedIdempotent`, `MergedConcat` and `MergedIntoEmpty` state it, and `Params.MergeAllowlist` is the loop that computes it |
| Params.ApplyOption | pkg/linter/linter.go:189-260 | No contract of its own: `Params.FlagOption`, `FlagUntouched`, `FlagLastWins`, `AllowlistsAccumulate` and `HashAllowlistLastWins` state what options do |
| Params.MergedContents | pkg/linter/linter.go:231-253 | Merging keeps the old list as a prefix, and an element ends up present iff it was in the list or in the values |
| Params.MergedNoDup | pkg/linter/linter.go:231-253 | Merging into a duplicate-free list gives a duplicate-free list |
| Params.MergedPresent | pkg/linter/linter.go:231-253 | Values already present leave the list unchanged |
| Params.MergedIdempotent | pkg/linter/linter.go:231-253 | Merging the same values twice is merging them once |
| Params.MergedConcat | pkg/linter/linter.go:231-253 | Merging `a + b` is merging `a` then `b` |
| Params.MergedIntoEmpty | pkg/linter/linter.go:231-253 | A duplicate-free list merged into an empty one is itself |
| Params.MergeAllowlist | pkg/linter/linter.go:233-237 | The append loop computes the merge |
| Params.WithDefaultsKeepsExplicit | pkg/linter/linter.go:271-305 | Afterwards every flag is set; a flag already set keeps its value; a nil flag gets its default; the lists are unchanged |
| Params.ApplyAllConcat | pkg/linter/linter.go:265-269 | Applying `a + b` is applying `a` then `b` |
| Params.FlagUntouched | pkg/linter/linter.go:189-260 | Options that do not set a flag leave it unchanged |
| Params.FlagLastWins | pkg/linter/linter.go:189-269 | The last option that sets a flag decides its value |
| Params.AllowlistsAccumulate | pkg/linter/linter.go:231-253 | The creator and action allowlists are the merge of every value list, in option order |
| Params.HashAllowlistLastWins | pkg/linter/linter.go:255-260 | The last hash-allowlist option replaces the whole map |
| Params.NormalizedNoDup | pkg/linter/linter.go:310-350 | Parameters with duplicate-free lists survive the `GetOptions` round trip unchanged |
| Params.BuiltRoundTrip | pkg/linter/linter.go:262-350 | Parameters built by `NewWorkflowLintParams` have duplicate-free lists and survive `GetOptions` unchanged |
| Params.TrimmedSHAsShape | pkg/linter/linter.go:941-945 | Keys, entry counts and comments are kept; each SHA is trimmed; trimming again changes nothing |
| Params.AppendIf | pkg/linter/linter.go:310-350 | One step of `GetOptions`: appending a field's option when the field is present extends the rebuilt prefix by that field |
| Params.WorkflowLintParams.constructor | pkg/linter/linter.go:263 | The zero struct: all flags nil, all lists empty |
| Params.WorkflowLintParams.Load | pkg/linter/linter.go:934-936 | Every field takes the decoded value |
| Params.WorkflowLintParams.Apply | pkg/linter/linter.go:189-260 | The struct's new value is the option applied to its old value |
| Params.WorkflowLintParams.FillDefaults | pkg/linter/linter.go:271-293 | The new value fills every nil flag with its default |
| Params.TrimEntries | pkg/linter/linter.go:942-944 | The inner loop keeps the number, order and comments of one action's entries and trims each SHA |
| Params.WorkflowLintParams.TrimHashAllowlistSHAs | pkg/linter/linter.go:941-945 | Only the hash allowlist changes, and it becomes its trimmed form |
| Params.NewWorkflowLintParams | pkg/linter/linter.go:262-308 | A new struct whose value is the options applied in order to the zero struct, then the defaults |
| Params.ToLintParams | pkg/linter/linter.go:933-948 | A new struct holding the decoded parameters with their SHAs trimmed |
| Engine.WorkflowLintInfo.RelPath | pkg/linter/linter.go:389-401 | Without a project, the file path; with one, it fails iff `filepath.Rel` fails, and otherwise returns its answer |
| Engine.ShortenHash | pkg/linter/linter.go:46-52 | A SHA becomes its 7-character prefix; anything else is kept |
| Engine.CommentShape | pkg/linter/linter.go:809-812 | A rendered comment is at most 23 characters and contains no white space other than single spaces |
| Engine.ResolveTagNames | pkg/linter/linter.go:655-668 | Fails iff the resolver fails, with a message naming the repository, the ref and the resolver's error; otherwise the tag names |
| Engine.FormatList | pkg/linter/linter.go:831 | No contract of its own: the items in brackets, separated by a space; `Engine.AllowlistOnlyReported` states the message it builds |
| Engine.RenderEntry | pkg/linter/linter.go:808-829 | No contract of its own: `Engine.CommentShape` bounds its comment, and `Engine.ResolveTagNames` states its failure |
| Engine.Renderings | pkg/linter/linter.go:814-829 | One rendering per entry, in order, each the entry's own |
| Engine.Rendered | pkg/linter/linter.go:806-831 | No contract of its own: `Engine.RenderedSpec` and `Engine.RenderedFailurePersists` state it, and `Engine.RenderAllowlist` is the loop that computes it |
| Engine.RenderedSpec | pkg/linter/linter.go:808-831 | Rendering succeeds iff every entry's tags resolve, and then yields one rendered string per entry, in order; a failure is the tag-resolution error of one of the entries |
| Engine.RenderedFailurePersists | pkg/linter/linter.go:814-819 | The first entry whose tags fail decides the result; later entries are never consulted |
| Engine.SequencedSpec | pkg/linter/linter.go:814-819 | Collecting per-entry results succeeds iff every entry succeeds, with the values in order; a failure is the error of some entry |
| Engine.RenderAllowlist | pkg/linter/linter.go:805-831 | The loop computes the rendering, stopping at the first failure |
| Engine.IsAllowlisted | pkg/linter/linter.go:630-653 | Allowlisted iff the owner is an allowed creator, the repository ID is an allowed action, or the ref is an allowed SHA; the reason names the first rule that matched |
| Engine.IsVerifiedCreator | pkg/linter/linter.go:622-628 | No contract of its own: `Engine.VerifiedCreatorsExactly` states which actions it accepts |
| Engine.VerifiedCreatorsExactly | pkg/linter/linter.go:622-628 | For an owner without `/`, `owner/name` is verified iff the (owner, name) pair is one of the four listed in const.go |
| Engine.CheckVerifiedOrg | pkg/linter/linter.go:545-548 | Without the enforce flag, nothing is checked and nothing is reported |
| Engine.CheckVerifiedOrgPasses | pkg/linter/linter.go:545-601 | With the flag, the check passes iff the owner is an organization that is verified; a failed user query and an unresolved user give their messages |
| Engine.RefPos | pkg/linter/linter.go:789-792 | The ref position is on the `uses` line, after the ID and the `@`; for an ASCII ID it is the ID's length plus one columns further |
| Engine.LintRef | pkg/linter/linter.go:794-856 | Errors are at the ref position. An unpinned ref is reported iff pinning is enforced. A pinned ref gives only runtime or SHA-not-allowlisted errors. Without allowlist-only mode it is reported iff its tags cannot be resolved. In allowlist-only mode it is always reported: a tag failure of the ref or of an allowlist entry as a runtime error with that message, otherwise SHA-not-allowlisted with the short SHA, its tags and the rendered allowlist |
| Engine.LintVetted | pkg/linter/linter.go:766-792 | An archive-query failure is a runtime error; an archived repository is reported unless allowed; otherwise the organization check, then the ref rule |
| Engine.LintParsed | pkg/linter/linter.go:709-764 | Local reusable workflows and, when excluded, official creators pass; an allowlisted action fails only with a runtime error iff its tags do not resolve; otherwise verified creators pass when excluded, else the remote checks |
| Engine.LintAction | pkg/linter/linter.go:689-702 | A relative-path failure, then a parse failure, are reported in that order with their kinds; otherwise the parsed rules decide |
| Engine.NewLintError | pkg/linter/linter.go:950-962 | No contract of its own: the error carries the message, kind and position it is given, and the workflow's file and project; `Engine.ManyAtsUnexpected`, `Engine.UnpinnedReported` and `Engine.AllowlistOnlyReported` state the errors built with it |
| Engine.LintJobUses | pkg/linter/linter.go:670-863 | No contract of its own: `Engine.NoAtNoError`, `Engine.ManyAtsUnexpected` and `Engine.OneAtChain` state it case by case |
| Engine.NoAtNoError | pkg/linter/linter.go:671-688 | A missing value or one without `@` is never reported |
| Engine.ManyAtsUnexpected | pkg/linter/linter.go:858-862 | Two or more `@` give exactly the unexpected-value error at the `uses` position |
| Engine.OneAtChain | pkg/linter/linter.go:689-702 | With exactly one `@`, the action chain decides |
| Engine.EarlyExitsIgnoreRemote | pkg/linter/linter.go:709-719 | The early exits report nothing, whatever the remote services answer |
| Engine.ProducedKinds | pkg/linter/linter.go:670-863 | The chain never produces the archived-action-used kind |
| Engine.ShaNotAllowlistedOnlyWhen | pkg/linter/linter.go:804-836 | SHA-not-allowlisted is reported only for a pinned ref in allowlist-only mode whose SHA appears in none of the action's hash-allowlist entries |
| Engine.ReachesRefChain | pkg/linter/linter.go:689-856 | An action that passes every earlier rule is decided by the ref rule, at the ref position |
| Engine.UnpinnedReported | pkg/linter/linter.go:847-853 | An unpinned ref that passes every earlier rule is reported as unpinned, right after the ID and `@`, iff pinning is enforced; otherwise it passes |
| Engine.AllowlistOnlyReported | pkg/linter/linter.go:804-836 | In allowlist-only mode a pinned ref that passes every earlier rule matches none of its allowlist entries and is always reported at the ref position. It is SHA-not-allowlisted exactly when its tags and every entry's tags resolve, and is otherwise a runtime error. The message lists one rendered item per entry, in order |
| Pipeline.StepResult | pkg/linter/linter.go:504-529 | A step's result has no runtime error and at most one lint error, which is present iff the step is an action and the chain reports it |
| Pipeline.WorkflowResults | pkg/linter/linter.go:470-493 | A workflow that does not parse gives a single runtime error naming the file and every parse error; otherwise no result has a runtime error |
| Pipeline.StepResults | pkg/linter/linter.go:514-529 | One result per step, in order, each the step's own result |
| Pipeline.JobResults | pkg/linter/linter.go:514-540 | The results of every job's steps, none of them with a runtime error |
| Pipeline.CollectLintErrors | pkg/linter/linter.go:902-909 | The fold appends the errors of every result without a runtime error |
| Pipeline.CollectedConcat | pkg/linter/linter.go:902-909 | Folding two batches is folding each and concatenating |
| Pipeline.CollectedMembers | pkg/linter/linter.go:902-909 | An error is reported iff some result without a runtime error carries it |
| Pipeline.CollectedPermutation | pkg/linter/linter.go:67-93 | The order in which the fan-in delivers results changes neither which errors are reported nor how often |
| Pipeline.LintWorkflowFiles | pkg/linter/linter.go:886-913 | The reported errors are the fold over every file's step results, file after file |
| Pipeline.ParseFailureReportsNothing | pkg/linter/linter.go:903-906 | A file that does not parse contributes no lint error |
| Pipeline.WorkflowErrors | pkg/linter/linter.go:514-540 | A parsed workflow's errors are exactly the chain's errors for its action steps |
| Pipeline.StepErrorReported | pkg/linter/linter.go:517-518 | Every error the chain returns for a step is reported, including runtime-error kinds |
| Run.ConfigFile.FilePath | pkg/workflow/config.go:30-60 | For a file on disk, the path inside its own file system is its base name alone, with no `/`; the embedded file is `data/actionarmor.yaml` |
| Run.HashAsWritten | pkg/workflow/config.go:62-68 | The source's key of a file on disk is `file` followed by the file's base name: the directory plays no part |
| Run.Hash | pkg/workflow/config.go:62-63 | The corrected key of a file on disk is `file` followed by its whole path; for the embedded file it is the source's key |
| Run.BaseOf | pkg/workflow/config.go:37 | `filepath.Base` of `dir/name` is `name` |
| Run.ProjectConfigFilePath | pkg/workflow/config.go:30-60 | The config file `GetConfigFile` finds in any project has `actionarmor.yaml` as its `FilePath` |
| Run.SharedCacheKey | pkg/workflow/config.go:30-68 | Two different projects' config files get the same key from the source's `Hash`, and different keys from `Run.Hash` |
| Run.SharedKeyRunAsWritten | pkg/cmd/run.go:79-110 | Keyed as in the source, a run over a workflow of project `/a` and then one of project `/b`, each with its own config, succeeds when `/a`'s config is usable, whatever `/b`'s holds, and leaves a single cache key |
| Run.SharedKeyParamsAsWritten | pkg/cmd/run.go:79-110 | Keyed as in the source, in that run `/b`'s workflow gets the parameters built from `/a`'s config |
| Run.SharedKeyParamsCorrected | pkg/cmd/run.go:79-110 | Keyed by `Run.Hash`, in that run `/b`'s workflow gets the parameters built from its own config |
| Run.SharedKeySameParams | pkg/cmd/run.go:79-86 | Keyed as in the source, the infos of any two workflows that use their own projects' configs hold the same parameters object |
| Run.SharedKeyRunCorrected | pkg/cmd/run.go:79-110 | Keyed by `Run.Hash`, the same run reads `/b`'s config: it leaves two keys, and it succeeds iff that config decodes, otherwise failing with its read or decode error |
| Run.TwoWorkflowRun | pkg/cmd/run.go:117-150 | For any key function, a run over two workflows with their own configs stops at the second only when its key differs from the first's and its config cannot be used |
| Run.HashInjective | pkg/workflow/config.go:62-68 | Two config files share a cache key iff they are the same file: the same source and the same location, whatever their contents |
| Run.ReadLintOptions | pkg/linter/linter.go:915-931 | A missing config, a read error and a decode error give their messages; otherwise the options rebuild the decoded parameters with trimmed SHAs |
| Run.KeyNameRoundTrip | pkg/cmd/flag.go:17-27 | The eight flag names are distinct, and each names its own field |
| Run.ToWorkflowLintOptionsFromFlags | pkg/cmd/run.go:34-72 | The visit computes one option per changed linter flag, in visit order |
| Run.FlagsClosedForm | pkg/cmd/run.go:34-72 | Changed boolean flags set their fields, changed allowlist flags merge their values, and nothing else changes |
| Run.FlagStep | pkg/cmd/run.go:34-72 | One more changed flag updates exactly its own field |
| Run.FlagOrderIrrelevant | pkg/cmd/run.go:34-72 | The order in which changed flags are visited, and any repetition, does not affect the result |
| Run.FlagsOverConfig | pkg/cmd/run.go:96-104 | A changed flag overrides the config; an unchanged flag keeps the config's value or the default; allowlist flags merge into the config's lists; the hash allowlist is the config's |
| Run.ConfigCache.constructor | pkg/cmd/run.go:22 | The cache starts empty, with the key function it is given |
| Run.ConfigCache.MakeLintParams | pkg/cmd/run.go:74-114 | On a cache hit (the config's key, under the cache's key function, is present), the cached parameters are returned without reading the file. Read and decode errors return unchanged and leave the cache as it was. Otherwise, config options then flag options are applied and the result is stored under the config's key. With no config, the cache is neither read nor written. Every result is complete |
| Run.ConfigCache.LintInfoOf | pkg/cmd/run.go:126-146 | One workflow: it fails iff its selected config's key is not cached and cannot be read or decoded, or its repository ID is unknown, with that error; otherwise its info. The cache only gains the key of a config that was read and decoded. When the selected config's key was not cached, the info's parameters are that config's decoded options, then the changed flags' options, then the defaults |
| Run.FirstError | pkg/cmd/run.go:125-147 | The first error, if any, is the error of one of the workflows, judged against the cache the workflows before it left |
| Run.FirstErrorAt | pkg/cmd/run.go:125-147 | When no workflow before `i` has an error and workflow `i` has one, the first error is workflow `i`'s |
| Run.FirstErrorNone | pkg/cmd/run.go:125-147 | There is no first error iff no workflow has an error |
| Run.ConfigCache.ToWorkflowLintInfo | pkg/cmd/run.go:117-150 | It succeeds iff no workflow has an error, where each workflow's error is judged against the keys cached at the start plus those of the workflows before it; otherwise it returns the first workflow's error. On success the cache gains exactly the keys of the selected configs. On success there is one info per workflow, in order. Each has the workflow's path and project, its repository ID, and complete parameters shared through the cache entry of its selected config. A workflow whose selected config's key was not cached at the start gets the parameters built from the config of the first workflow in the run with that key: its decoded options, then the changed flags' options, then the defaults. A workflow with no config gets the flags' options over the zero parameters. The cache keeps every entry it had and gains only the keys of configs that were read and decoded |
| Run.OwnConfigUnderHash | pkg/cmd/run.go:79-110 | Keyed by `Run.Hash`, a workflow whose config was not cached at the start gets the parameters built from that very config |

## Findings

| source | as written | input that shows it | evidently intended | confidence | as-written member | corrected member |
|---|---|---|---|---|---|---|
| pkg/workflow/config.go:30-68 | `NewConfigFileFromFile` stores `dirPath` `.` and `fileName` `filepath.Base(path)`, and `Hash` digests the source and `FilePath()`. Every project's `.github/actionarmor.yaml` therefore gets the same key (`Run.SharedCacheKey`), and `makeLintParams` (run.go:79-86) hands the first project's cached parameters to every later project (`Run.SharedKeySameParams`) without reading its config | two projects `/a` and `/b`, each with its own `.github/actionarmor.yaml`, `/a`'s usable and `/b`'s malformed: both keys are the digest of `file` + `actionarmor.yaml`, and the run succeeds, linting `/b` with the parameters built from `/a`'s config (`Run.SharedKeyParamsAsWritten`) | the comment on `Hash` says the key covers the file path, so different files get different keys (`Run.HashInjective`), each project's config is read, `/b` gets the parameters built from its own config (`Run.SharedKeyParamsCorrected`), and `/b`'s malformed config stops the run | medium; not executed | Run.SharedKeyRunAsWritten | Run.SharedKeyRunCorrected |

## Left out

- Concurrency is not modelled: the goroutines, channels, `done` cancellation, the worker semaphore and the fan-in. Results are a sequence, and `Pipeline.CollectedPermutation` shows that their order does not matter. The failure path of `sem.Acquire` (linter.go:507-509) sends on an unbuffered channel before any reader exists, so it cannot deliver a result; it is not modelled.
- The GraphQL query bodies (`query`, `getQueryParams`, `isArchivedAction`), the tag resolver and `git.GetRepoID` are not modelled. Their answers are oracle functions.
- `resolver.IsSHA` is not part of this model. `Parser.IsSHA` takes a SHA to be 40 lower-case hexadecimal characters.
- YAML decoding and the file read are an oracle (`Run.ConfigRead`).
- The SHA3 digest in `Hash` is modelled by its input. So `Run.HashInjective` assumes the digest has no collisions.
- `Run.Base` models `filepath.Base` only for a path that names a file. A path ending in `/` gives the empty string, whereas Go drops trailing slashes first. `Run.JoinPath` models `filepath.Join` only for a clean directory and a base name.
- `common.ToolName` is not part of this model. `Run.ToolName` takes it to be `actionarmor`, the name of the config file in main_test.go:66.
- `Run.ProjectConfig` is the `.yaml` spelling that `GetConfigFile` tries first. The `.yml` fallback and the `os.Stat` probe are not modelled; a project's config is an input of `Run.WorkflowInfo`.
- The error `LintWorkflowFilesContext` adds when a file cannot be read (linter.go:895-897) is not modelled. That path passes a nil position to `newLintError`, which dereferences it. The model takes each file's parsed contents as input, and `Engine.NewLintError` always has a position.
- Logging, `String()` methods and the `%v` formatting of log attributes are left out.
- The `time.Time` of the archive date is a string, as the remote oracle renders it.
- The error result of `isVerifiedCreator` (always nil in the source) and its error branch in `lintJobUses` (linter.go:754-758) are not modelled.
- `NewWorkflowLintParams` never fails, because every option returns nil. So the wrapping error in `makeLintParams` (run.go:105-107) is unreachable and not modelled.
- Go distinguishes a nil slice or map from an empty one. The model does not: the two behave the same everywhere in the core.
- `Run.ToWorkflowLintOptionsFromFlags` takes the names of the changed flags in the flag set's visit order. `pflag` and the `Changed` bits are not modelled.
- Cached parameters are shared between workflows exactly as in the source (the same object). Nothing in the core modifies them after they are built.
- `Engine.EarlyExitsIgnoreRemote` covers only the two early exits. Whether the remote services are consulted by the later rules is not stated.
- `Pipeline.StepResult` states the result of the step's own task. It does not cover a task cancelled through `done`, which delivers nothing.
