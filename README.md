# quickapp core in Dafny

This project models the core of `quickapp`, a framework for command-line
applications that define compmake jobs. It covers four parts:

- **Sub-contexts** (`subcontexts.dfy`, module `Subcontexts`). Lists of
  experiment values become short, unambiguous context names:
  - `good_context_name` removes dashes and underscores;
  - `minimal_names` strips the common character prefix and postfix;
  - `minimal_names_at_boundaries` strips them only at `_` boundaries;
  - `iterate_context_names` and its pair, triplet, quartet and quintuplet
    variants create one child context per value, or per combination of
    values, in row-major order.
- **Compmake contexts** (`compmake_context.dfy`, module `CompmakeContexts`).
  A `CompmakeContext` carries:
  - a job prefix and an output directory;
  - a list of extra dependencies;
  - a table of the jobs it defined;
  - a count of `comp` invocations, which propagates to every ancestor.

  `child` derives a child's prefix (`parent-name`, with `-` in the name made
  `_`) and its output directory (the raw name joined to the parent's).
  `checkpoint` defines a job that depends on every job defined so far, and
  makes it a dependency of every later job.
- **Report manager** (`report_manager.dfy`, module `ReportManagers`).
  - `add` rejects a report type that is not a string, a report that is not
    a promise, and a key already present. Otherwise it records the report and
    its file name, `<outdir>/<type>/<values joined by _>.html`.
  - `make_sections` builds the tree of sections: a table of one entry is a
    sample; a larger one is divided on the field, present in every key, with
    the fewest distinct values.
- **Parameters** (`decent_param.dfy`, module `DecentParams`). The
  `DecentParam` class, with its `Multiple`, `Choice` and `Flag` variants:
  - a parameter is compulsory exactly when its default is the `not_given`
    marker;
  - a default other than `None` is validated;
  - a command-line string is converted to a value: one per comma-separated
    piece for `Multiple`, a `Choice` when a single-valued parameter's string
    holds a comma;
  - `get_desc` writes the help text.

Supporting modules:

- `Wrappers` holds `Option` and `Result`.
- `PyStr` holds the Python string operations the core relies on: clamped
  slicing, `startswith`/`endswith`, `replace`, `split`/`join`,
  `os.path.join`, `int()` and `str()` of integers.
- `PyValues` holds the dynamic Python values the core handles (`None`,
  bools, ints, floats, strings, lists, `Choice`), with `str`, `repr`, `==`
  and `in`, and the compmake `Promise`. An integer beyond `sys.maxint` is a
  Python 2 `long`, which has its own type name and is not an `int`.

Python exceptions are modelled as the `Err` side of a `Result`. Each
exception the source raises is one constructor of an error datatype. The
`assert`s that check a decomposition by rebuilding it count among these
exceptions.

## Model

| member | source | states |
|---|---|---|
| Subcontexts.GoodContextName | src/quickapp/app_utils/subcontexts.py:63-71 | the result contains neither `-` nor `_` |
| Subcontexts.GoodContextNameDeletesSeparators | src/quickapp/app_utils/subcontexts.py:69-70 | the two `replace` calls delete exactly the separator characters and keep every other character, in order |
| Subcontexts.GoodContextNameIdempotent | src/quickapp/app_utils/subcontexts.py:63-71 | applying `good_context_name` twice is the same as applying it once |
| Subcontexts.CommonPrefix | src/quickapp/app_utils/subcontexts.py:97 | `os.path.commonprefix` is a prefix of every object, and every common prefix is a prefix of it (it is the longest) |
| Subcontexts.CommonPostfix | src/quickapp/app_utils/subcontexts.py:99-101 | the reversed common prefix of the reversed objects is a suffix of every object and the longest such suffix |
| Subcontexts.Check | src/quickapp/app_utils/subcontexts.py:109-114 | the decomposition is accepted exactly when prefix + minimal + postfix rebuilds every object |
| Subcontexts.StripRebuild | src/quickapp/app_utils/subcontexts.py:107-110 | cutting a shared prefix and postfix off every object and gluing them back gives the objects again |
| Subcontexts.MinimalNamesRoundTrip | src/quickapp/app_utils/subcontexts.py:75-114 | with the slice corrected, `minimal_names` of two or more objects succeeds exactly when no object is shorter than the common prefix plus the common postfix, and then rebuilds every object |
| Subcontexts.AsWrittenAgreesWithNonEmptyPostfix | src/quickapp/app_utils/subcontexts.py:104-107 | when the common postfix is not empty, the slice `o[n1:-n2]` as written gives the same result as the corrected one |
| Subcontexts.EmptyPostfixFailsAsWritten | src/quickapp/app_utils/subcontexts.py:104-113 | as written, with an empty common postfix, every minimal name is empty, so the rebuild assertion fails whenever some object is longer than the common prefix |
| Subcontexts.AsWrittenFailsOnDistinctEndings | src/quickapp/app_utils/subcontexts.py:104-113 | `["ab", "ac"]` fails as written and decomposes as `("a", ["b", "c"], "")` when corrected |
| Subcontexts.MinimalNamesDocstringExample | src/quickapp/app_utils/subcontexts.py:79-91 | the docstring's three `test_learn_*_10` names give `fast`, `slow`, `faster`, both as written and corrected |
| Subcontexts.MaxTokenCount | src/quickapp/app_utils/subcontexts.py:164-165 | `ntokens` is the largest number of `_`-separated tokens of any object, and some object has that many |
| Subcontexts.PrefixRun | src/quickapp/app_utils/subcontexts.py:167-173 | the prefix loop runs up to the last candidate that every object starts with, stopping at the first one that fails |
| Subcontexts.PostfixRun | src/quickapp/app_utils/subcontexts.py:177-184 | the postfix loop runs up to the last candidate that every object ends with, stopping at the first one that fails |
| Subcontexts.MinimalNamesAtBoundaries | src/quickapp/app_utils/subcontexts.py:119-197 | the imperative version, with its two loops and `break`s, computes exactly `BoundaryDecomposition` |
| Subcontexts.GrowPrefix | src/quickapp/app_utils/subcontexts.py:164-174 | the prefix loop returns `BoundaryPrefix` |
| Subcontexts.GrowPostfix | src/quickapp/app_utils/subcontexts.py:176-186 | the postfix loop returns `BoundaryPostfix` |
| Subcontexts.BoundaryAffixes | src/quickapp/app_utils/subcontexts.py:158-186 | the chosen prefix starts every object and is empty or ends with `_`; the chosen postfix ends every object and is empty or starts with `_` |
| Subcontexts.BoundaryRoundTrip | src/quickapp/app_utils/subcontexts.py:188-197 | for two or more objects the decomposition succeeds exactly when no object is shorter than prefix plus postfix, and then rebuilds every object |
| Subcontexts.BoundaryPrefixLongest | src/quickapp/app_utils/subcontexts.py:167-173 | no longer token-aligned candidate within `ntokens` is a prefix of every object |
| Subcontexts.BoundaryPostfixLongest | src/quickapp/app_utils/subcontexts.py:177-184 | no longer token-aligned candidate within `ntokens` is a postfix of every object |
| Subcontexts.BoundaryDocstringExample | src/quickapp/app_utils/subcontexts.py:126-138 | the docstring's three names give prefix `test_`, names `learn1_fast`, `learn1_slow`, `learn2_faster` and postfix `_10` (the docstring misprints the second name) |
| Subcontexts.BoundaryFailsOnOverlap | src/quickapp/app_utils/subcontexts.py:188-196 | `["a_b", "a_b"]` takes prefix `a_` and postfix `_b`, which overlap, so the rebuild assertion fails |
| Subcontexts.BoundaryFailsOnShortObject | src/quickapp/app_utils/subcontexts.py:188-196 | `["a_b_c", "a_c"]` takes prefix `a_` and postfix `_c`, longer than `a_c`, so the rebuild assertion fails |
| Subcontexts.DashIsNotABoundary | src/quickapp/app_utils/subcontexts.py:147-152 | because `convert` returns before its loop, `-` is not a boundary: `["x-a", "x-b"]` keeps both names whole |
| Subcontexts.NoSeparatorPair | src/quickapp/app_utils/subcontexts.py:141-197 | two names without `_` decompose with empty prefix and postfix and keep their names |
| Subcontexts.Strs | src/quickapp/app_utils/subcontexts.py:13 | `map(str, it1)` keeps the length and gives `str` of each item |
| Subcontexts.GoodContextNames | src/quickapp/app_utils/subcontexts.py:17 | `map(good_context_name, names)` applies `good_context_name` to each name |
| Subcontexts.ContextNames | src/quickapp/app_utils/subcontexts.py:8-17 | an empty iterator raises; otherwise the names exist exactly when the boundary decomposition of the items' strings succeeds, one per item, with no `-` or `_` |
| Subcontexts.ContextNamesSingle | src/quickapp/app_utils/subcontexts.py:141-142 | a single item keeps its whole string, cleaned by `good_context_name` |
| Subcontexts.IterateContextNames | src/quickapp/app_utils/subcontexts.py:8-20 | fails exactly when the naming fails, with the same error; otherwise yields one fresh child per item, in order, paired with the item, named by its minimal name and inheriting the context's dependencies |
| Subcontexts.NamedChildren | src/quickapp/app_utils/subcontexts.py:18-20 | the loop makes one fresh child per name, in order, each with the parent's prefix extended by that name |
| Subcontexts.IterationNames | src/quickapp/app_utils/subcontexts.py:23-60 | the names of a nesting exist exactly when every level's names exist, one list per level of matching length |
| Subcontexts.IterationNamesStep | src/quickapp/app_utils/subcontexts.py:28-29 | naming a nesting succeeds exactly when its first level and the rest succeed, with the rest's error otherwise |
| Subcontexts.GridSize | src/quickapp/app_utils/subcontexts.py:23-60 | the nesting yields the product of the levels' lengths |
| Subcontexts.GridIndex2 | src/quickapp/app_utils/subcontexts.py:28-30 | in the two-level nesting the tuple at `i * n2 + j` carries items `i` and `j` and the grandchild prefix built from their names |
| Subcontexts.YieldsPrepend | src/quickapp/app_utils/subcontexts.py:28-30 | prefixing each inner tuple's values with the outer item preserves the correspondence with the specification rows |
| Subcontexts.IterateNested | src/quickapp/app_utils/subcontexts.py:23-60 | nests `iterate_context_names` over any number of levels: fails exactly when some level's naming fails; otherwise yields fresh descendants in row-major order, each matching the specification grid |
| Subcontexts.IterateBelow | src/quickapp/app_utils/subcontexts.py:28-30 | the outer loop of a nesting yields the blocks of every item, one after another, each made of fresh descendants |
| Subcontexts.IterateItem | src/quickapp/app_utils/subcontexts.py:28-30 | one outer round makes the item's child and yields the inner nesting below it, with the item prepended |
| Subcontexts.IterateWide | src/quickapp/app_utils/subcontexts.py:23-60 | a nesting of at least one level yields as many tuples as the product of the lengths, each carrying one value per level, each a fresh descendant of the context |
| Subcontexts.Pairs | src/quickapp/app_utils/subcontexts.py:30 | converting the nesting's rows to `(c, x1, x2)` tuples loses nothing: `Unpairs` gives the rows back |
| Subcontexts.Triplets | src/quickapp/app_utils/subcontexts.py:39 | the conversion to `(c, x1, x2, x3)` tuples is undone by `Untriplets` |
| Subcontexts.Quartets | src/quickapp/app_utils/subcontexts.py:49 | the conversion to `(c, x1, ..., x4)` tuples is undone by `Unquartets` |
| Subcontexts.Quintuplets | src/quickapp/app_utils/subcontexts.py:60 | the conversion to `(c, x1, ..., x5)` tuples is undone by `Unquintuplets` |
| Subcontexts.PairsInRowMajorOrder | src/quickapp/app_utils/subcontexts.py:28-30 | the tuple at `i * len(it2) + j` is `(c, it1[i], it2[j])`, with `c` named after both items |
| Subcontexts.PairNames | src/quickapp/app_utils/subcontexts.py:28-29 | the pair is named exactly when both lists are, with the first list's error first |
| Subcontexts.IteratePair | src/quickapp/app_utils/subcontexts.py:23-30 | fails exactly when either list's naming fails; otherwise yields `len(it1) * len(it2)` tuples in row-major order, each a fresh grandchild with both items and the prefix of both names |
| Subcontexts.IterateTriplet | src/quickapp/app_utils/subcontexts.py:32-39 | fails exactly when some list's naming fails; otherwise yields the product of the lengths of fresh descendants matching the grid |
| Subcontexts.IterateQuartet | src/quickapp/app_utils/subcontexts.py:41-49 | the same for four lists |
| Subcontexts.IterateQuintuplet | src/quickapp/app_utils/subcontexts.py:51-60 | the same for five lists |
| Subcontexts.OneLetterNames | src/quickapp/app_utils/subcontexts.py:8-17 | two one-letter strings keep their letters as names |
| Subcontexts.PairOfLetters | src/quickapp/app_utils/subcontexts.py:23-30 | from a root context, a pair of two-letter lists yields four contexts with prefixes `a-m`, `a-n`, `b-m`, `b-n` in that order |
| CompmakeContexts.JobDB.Define | src/quickapp/compmake_context.py:65 | defining a job adds exactly that id to the job database and returns its promise |
| CompmakeContexts.FriendlyName | src/quickapp/compmake_context.py:113 | `name.replace('-', '_')` keeps the length, has no `-`, and keeps every other character |
| CompmakeContexts.ChildJobPrefixExtends | src/quickapp/compmake_context.py:115-127 | an empty added prefix keeps the parent's; otherwise the child's prefix ends with the added part and starts with the parent's prefix and `-`, or is the added part alone for a root |
| CompmakeContexts.SiblingJobPrefixesDiffer | src/quickapp/compmake_context.py:113-125 | children whose friendly names differ get different job prefixes, also when one friendly name is empty and that child keeps the parent's prefix |
| CompmakeContexts.DashAndUnderscoreShareJobPrefix | src/quickapp/compmake_context.py:113-132 | `a-b` and `a_b` share a job prefix but get different output directories |
| CompmakeContexts.ChildOutputDirUsesRawName | src/quickapp/compmake_context.py:118-132 | the child's directory is the raw name joined to the parent's, or the parent's own when `add_outdir` is `''` |
| CompmakeContexts.GrandchildJobPrefix | src/quickapp/compmake_context.py:121-125 | child `m` of root child `a` has prefix `a-m` |
| CompmakeContexts.CompmakeContext.constructor | src/quickapp/compmake_context.py:17-30 | stores every argument, creates a resource manager when none is given, starts with no invocations and no jobs |
| CompmakeContexts.CompmakeContext.AncestorsTransitive | src/quickapp/compmake_context.py:17-30 | an ancestor is valid and its ancestors are among this context's ancestors |
| CompmakeContexts.CompmakeContext.AllJobs | src/quickapp/compmake_context.py:35-36 | every recorded promise is in the result and every promise in the result is recorded; while every promise is filed under its own job id (`JobsNamed`), the result is exactly the promises of the recorded ids |
| CompmakeContexts.CompmakeContext.AllJobsDict | src/quickapp/compmake_context.py:38-39 | the copy has the same ids, each with the same promise, and its promises are those of `all_jobs()` |
| CompmakeContexts.CompmakeContext.CountCompInvocations | src/quickapp/compmake_context.py:79-82 | adds one to this context's count and to every ancestor's |
| CompmakeContexts.CompmakeContext.Comp | src/quickapp/compmake_context.py:57-67 | counts the invocation up the chain, defines the job under this context's prefix with its dependencies followed by the call's, and records the promise under its job id, so every promise stays filed under its own id |
| CompmakeContexts.CompmakeContext.Checkpoint | src/quickapp/compmake_context.py:42-54 | defines a job that takes every job defined so far, records it under its own id, and appends it to the extra dependencies |
| CompmakeContexts.CompmakeContext.Needs | src/quickapp/compmake_context.py:168-172 | appends the resource's promise to the extra dependencies |
| CompmakeContexts.CompmakeContext.Child | src/quickapp/compmake_context.py:93-150 | a fresh child of this context, with the same or the given app, the derived prefix and directory, the same report manager, a shared or fresh resource manager, and the parent's dependencies followed by the given ones |
| CompmakeContexts.CheckpointOrdersJobs | src/quickapp/compmake_context.py:42-67 | a checkpoint depends on every earlier job, and a later job depends on the checkpoint |
| ReportManagers.KeyOf | src/quickapp/report_manager.py:46 | the key holds the keyword arguments and the report type under `report` |
| ReportManagers.BaseName | src/quickapp/report_manager.py:55-58 | after `/` is replaced by `_`, the base name contains no `/`, so the check on line 57 never raises |
| ReportManagers.DefaultIndexFilenameInOutdir | src/quickapp/report_manager.py:18-19 | the default index is `report_index.html` inside the output directory |
| ReportManagers.FilenameLayout | src/quickapp/report_manager.py:54-60 | the file name is `<outdir>/<report_type>/<basename>.html` |
| ReportManagers.ReportManager.constructor | src/quickapp/report_manager.py:16-22 | stores the output directory and the given or default index file, with both tables empty |
| ReportManagers.ReportManager.Add | src/quickapp/report_manager.py:25-60 | the three errors in the order the source checks them (a non-string `report_type` is refused by the `@contract` decorator on line 24 before the body runs), each leaving both tables unchanged; otherwise records the promise and its file name under the new key |
| ReportManagers.Group | src/quickapp/report_manager.py:288-289 | the group of a value holds every entry with that value, with the field removed, and nothing else |
| ReportManagers.CandidateFields | src/quickapp/report_manager.py:274-275 | the candidates are exactly the fields present in every key |
| ReportManagers.FirstMinimum | src/quickapp/report_manager.py:278-286 | the stable sort's first element is the first index of a minimal count |
| ReportManagers.ChooseFieldFewest | src/quickapp/report_manager.py:274-286 | the chosen field has the fewest distinct values, and no earlier field has as few |
| ReportManagers.MakeSections | src/quickapp/report_manager.py:262-295 | one entry gives a sample of it with the given `common`; no field shared by every key gives the error |
| ReportManagers.MakeSectionsDivides | src/quickapp/report_manager.py:286-295 | two or more entries give a division on the chosen field, one subsection per value, each built from that value's group with the value added to `common` |
| ReportManagers.MakeSectionsLeaves | src/quickapp/report_manager.py:262-295 | the samples at the leaves, with the values fixed on the way down, are exactly the table's entries: nothing lost, nothing added |
| ReportManagers.GroupRestores | src/quickapp/report_manager.py:288-292 | adding the field's value back to `common` restores the group's entries to the original ones with that value |
| ReportManagers.GroupsHaveFewerFields | src/quickapp/report_manager.py:288-292 | each group has strictly fewer fields, so the recursion ends |
| DecentParams.CheckTypeNumbers | src/decent_params/decent_param.py:57-66 | `int` accepts ints within `sys.maxint` and bools but no `long`; `float` also accepts those ints and bools; `str` only strings; `bool` only bools |
| DecentParams.CheckType | src/decent_params/decent_param.py:57-66 | a failure names the parameter, the declared type and the value's type |
| DecentParams.CheckEach | src/decent_params/decent_param.py:142-143 | passes exactly when every element passes, and otherwise reports the first failing element |
| DecentParams.Validate | src/decent_params/decent_param.py:33-34 | a plain parameter checks the type; `Multiple` requires a list whose elements all pass; `Choice` requires membership in the choices |
| DecentParams.Scalar | src/decent_params/decent_param.py:46-55 | `str` keeps the string, `bool` is true for a non-empty string, `int` parses or fails, other types raise; every `str`, `float` and `bool` result is an instance of the type, and an `int` result is one exactly when it fits `sys.maxint` |
| DecentParams.ConvertPieces | src/decent_params/decent_param.py:43-44 | converts each piece, failing exactly when some piece fails, with the first failure |
| DecentParams.ValueFromString | src/decent_params/decent_param.py:39-55 | `Multiple` gives the list of the comma-separated pieces; otherwise a comma gives a `Choice` of the pieces and no comma a single value |
| DecentParams.StrChoiceRoundTrip | src/decent_params/decent_param.py:42-47 | comma-free strings joined with commas come back as the `Choice` of those strings |
| DecentParams.IntRoundTrip | src/decent_params/decent_param.py:50-51 | the decimal string of an integer converts back to that integer |
| DecentParams.LongFailsValidation | src/decent_params/decent_param.py:50-66 | a decimal beyond `sys.maxint` converts to a `long`, which the `int` parameter's own `check_type` refuses as type `long` |
| PyStr.ParseIntOfIntToString | src/decent_params/decent_param.py:51 | `int(str(i)) == i` for every integer |
| PyStr.SplitJoin | src/decent_params/decent_param.py:44 | splitting the join of separator-free pieces gives the pieces back |
| PyStr.JoinSplit | src/decent_params/decent_param.py:44 | joining the pieces of a split gives the string back |
| DecentParams.ParsedMultipleValidates | src/decent_params/decent_param.py:132-143 | a value a `Multiple` parameter parses passes its own `validate` exactly when `int()` gave no `long` for any piece |
| DecentParams.Pad8 | src/decent_params/decent_param.py:73 | `%8s` right-aligns in at least eight characters, padding with spaces |
| DecentParams.DecentParam.constructor | src/decent_params/decent_param.py:11-28 | compulsory exactly when the default is `not_given`, in which case the default becomes `None` |
| DecentParams.DecentParam.New | src/decent_params/decent_param.py:11-28 | construction fails exactly when a default other than `None` fails `validate`, with that error; the created parameter is compulsory exactly when no default was given |
| DecentParams.DecentParam.SetFromString | src/decent_params/decent_param.py:36-37 | stores the converted value, or fails with the conversion's error and leaves the value unchanged |
| DecentParams.DecentParam.GetDesc | src/decent_params/decent_param.py:68-74 | a compulsory parameter's text is `[*required*] ` and the description; with a default it is `[default: `, the padded default, `] ` and the description; otherwise the description itself |
| DecentParams.MultipleDefault | src/decent_params/decent_param.py:125-131 | a `Multiple` default that is not a list is wrapped in one; other defaults are kept |
| DecentParams.ChoiceDefaultMustBeAChoice | src/decent_params/decent_param.py:158-166 | a `Choice` default outside the choices is rejected with `NotAmongChoices` |
| DecentParams.DecentParamsResults.Get | src/decent_params/decent_param.py:114-115 | `results[name]` is the stored value, and is missing exactly when the name is not stored |
| DecentParams.DecentParamsResults.Given | src/decent_params/decent_param.py:117-118 | `given(name)` holds exactly for the names given on the command line |

## Left out

- `comp` hands the job to compmake's global `comp`, and compmake chooses the job id. Here the caller passes a job id not yet defined. The function, its arguments and compmake's naming are not modelled; only the command name is kept.
- `comp_prefix` sets compmake's global prefix. The model records the prefix in each job definition instead.
- `comp_config`, `wrap_state`, `GlobalConfig`, `get_output_dir` (creates directories), `subtask` (calls into `QuickApp.call_recursive`), `add_report`, `get_report_manager`, `get_resource_manager` and `__str__` are not modelled. Each is a thin delegation or I/O.
- `ResourceManager(self)` is modelled as an opaque object, without the back-reference to its context. `needs` takes the promise that `get_resource` would return; `ResourceManager` is not part of this model.
- `CompmakeContexts.CompmakeContext.constructor`: the Python default `extra_dep=[]` is one list shared by every call. Root contexts created without `extra_dep` would share and mutate it; here each context owns a value-typed list.
- `CompmakeContexts.CompmakeContext.Checkpoint`: the Python appends to a list that children received by `+`, which makes a copy. The model's value semantics give the same result; aliasing of a list passed in explicitly is not modelled.
- Warnings and logging (`warnings.warn` in `child`) are left out.
- `ReportManagers.ReportManager.Add`: a non-string `report_type` raises `ContractNotRespected` from the `@contract` decorator (line 24) before the body runs; the `ValueError` of lines 35-37 is raised only when PyContracts is disabled. Both are the one error `ReportTypeNotString`, and the model does not tell the two exception classes apart.
- `ReportManagers.ReportManager.Add`: `frozendict2` may treat `True` and `1` as the same key. Keys here compare by the model's value equality.
- `ReportManagers.ReportManager.Add`: `kwargs.values()` follows dict order, which Python 2 does not fix. The model uses the caller's order of the keyword arguments.
- `ReportManagers.MakeSections`: `StoreResults` (from `reprep`) is not part of this model. The order in which it lists field names is the parameter `fieldOrder`.
- `ReportManagers.MakeSections`: for one entry the source takes `keys()[0]`. The model picks the only key, which is the same.
- `ReportManagers.MakeSections`: the source never calls itself on an empty table. The model returns the error for an empty table.
- `create_index_job`, `index_reports`, the HTML writing and the rest of `report_manager.py` outside `__init__`, `add` and `make_sections` are left out.
- `DecentParams.Scalar`: `float(s)` is kept as the unparsed literal `PyFloat(s)`. The model does not parse floating point, so a malformed float does not raise here.
- `DecentParams.Scalar`: `int(s)` is modelled for optional surrounding whitespace, an optional sign and decimal digits. Underscores and other bases are left out.
- `DecentParams.DecentParam.constructor`: `default is not not_given` in `DecentParamMultiple` is an identity test. The model uses value equality with the marker string.
- `PyValues.MaxInt`: `sys.maxint` is fixed at `2**63 - 1`, that of a 64-bit build; a 32-bit build has `2**31 - 1`. A `long` written with an `L` suffix but within that bound (such as `5L`) is not told apart from an `int`, so `DecentParams.IsInstance` accepts it as an `int` where Python would not.
- `PyValues.PyEq`: `==` between an `int` and a `float` (`1 == 1.0`) is not modelled, because floats are kept as their literal text. A `Choice` parameter whose choices mix ints and floats can therefore reject in the model a value that Python's `value in self.choices` accepts.
- `DecentParams.IsInstance`: `isinstance` against a class other than the built-in ones is modelled by comparing the type's name.
- `populate` (argparse wiring, including all of `DecentParamFlag`), `__repr__`, `__str__`, `get_extra` and `get_params` are left out. They only talk to argparse or format text.
- `DecentParamsResults` copies the values into the instance's attributes. This is Python attribute access, and it is not modelled.
- `Subcontexts.IterateContextNames`: the Python functions are generators. The model produces the whole sequence eagerly. Every naming error of an inner level is raised during the first outer round, before anything is yielded, so success or failure is the same; the moment at which children are created is not modelled.
- `Subcontexts.IterateNested`: the pair, triplet, quartet and quintuplet variants share one recursion over a list of levels. Each fixed-arity method then converts the rows to tuples.
- `Subcontexts.Strs`: `str()` of a value follows the model's `PyValues.Str`, which covers the value kinds listed above. Floats keep their literal text.
- `minimal_names_at_boundaries` takes a `separators` argument. Every caller uses the default `['_', '-']`, and `convert` returns before using the other separators, so the model fixes `_` as the only separator.

## Findings

| source | as written | input that shows it | evidently intended | confidence | as-written member | corrected member |
|---|---|---|---|---|---|---|
| src/quickapp/app_utils/subcontexts.py:105-107 | `o[n1:-n2]` with `n2 == 0` is `o[n1:0]`, the empty string, so the rebuild assertion on line 113 fails | `minimal_names(['ab', 'ac'])`: prefix `a`, postfix empty, minimal names `['', '']` | `o[n1:len(o) - n2]`, as `minimal_names_at_boundaries` writes on line 191, giving `('a', ['b', 'c'], '')` | not executed | Subcontexts.MinimalNamesAsWritten, Subcontexts.EmptyPostfixFailsAsWritten, Subcontexts.AsWrittenFailsOnDistinctEndings | Subcontexts.MinimalNames, Subcontexts.MinimalNamesRoundTrip |
