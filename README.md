# Resource module builder: a Dafny model of its core

The resource module builder generates the skeleton of an Ansible network resource module from a YANG or
JSON-schema model. This project models the parts of it that compute, and proves what they promise:

- **Schema fetching** (`fetch.dfy`, `import_scan.dfy`). The `SchemaStore` of the yang collection is a class
  over an abstract NETCONF device (`Device`): a catalogue of `(identifier, version)` entries and a reply per
  `<get-schema>` request. `run` drains a work queue breadth-first, fetching each model and queueing the
  unfetched names it imports. It is proved against a step function (`Step`/`Finish`). The proofs cover:
  - no model is fetched twice;
  - the returned counter counts the models handled;
  - `changed` is set exactly when something was queued;
  - models fetched earlier are kept;
  - a completed run closes the root over imports.
- **YANG to options** (`yang.dfy`, `pyang_common.dfy`, `ansible_old.dfy`, `ansible_next.dfy`,
  `ansible_plugin.dfy`). There are three pyang output plugins. A YANG statement is an inductive datatype; the
  typedef, leafref and identity-base pointers that pyang attaches are embedded in it, so every chain is
  finite.
  - `ansible_old.py` resolves typedef chains, enumerations, identity derivation, lengths and unmapped types.
  - `ansible_next.py` produces a JSON-schema-like tree: type table, choice flattening, `oneOf` for unions,
    namespace-qualified names, and path lookup.
  - `ansible.py` is a minimal converter.
- **Documentation and argspec filters** (`json.dfy`, `plain_python.dfy`, `scaffold_argspec.dfy`,
  `scaffold_doc.dfy`, `json_schema.dfy`, `doc_options.dfy`, `resource_argspec.dfy`, `jref.dfy`). These
  Ansible filter plugins rewrite JSON-like values. A value is `Json`, and a dict is an ordered sequence of
  key/value pairs, as Python dicts keep insertion order. The filters:
  - turn documentation options into an argument spec;
  - order documentation keys;
  - turn a JSON schema into documentation suboptions or argspec options;
  - run the standalone `jref.py` script, proved to agree with `to_docoptions` wherever both succeed.
- **YAML fix-up** (`insert.dfy`). `stringify_on_off` double-quotes `on`/`off` values in place (a
  `YamlDocument` class), and `extract_and_update` splices a subtree into `DOCUMENTATION.options.config`.

Python's failures are values of `Result`: `KeyError`, `TypeError` and `AttributeError` on a bad subscript or
method, and the `AnsibleFilterError`, `ValueError` and `EmitError` messages the code raises. `in`, `[]`,
`.get` and truthiness follow Python on each kind of value (`JsonValue.Contains`, `GetItem`, `Truthy`).
Strings carry a style (`Plain`, Ansible's `AnsibleText` wrappers, `DoubleQuoted`), so that
`convert_to_plain_python` and `DoubleQuotedScalarString` are observable. Equality as Python sees it ignores
the style (`PlainPython.Erase`).

Three behaviours of `run` that are easy to misread in the code, and that the model keeps:
- `run` checks `fetched` both before queueing an import and again when dequeuing.
- A refused `<get-schema>` raises even when failures are tolerated; only a model missing from the catalogue
  is recorded in `failed_yang_models`.
- The counter `run` returns counts the models handed to `get_schema_and_dependants`, failed ones included,
  not only the newly fetched ones.

## Model

| member | source | states |
|---|---|---|
| Fetch.Identifiers | collections/ansible_collections/community/yang/plugins/module_utils/fetch.py:67-69 | one identifier per catalogue entry, in catalogue order |
| Fetch.FirstMatch | collections/ansible_collections/community/yang/plugins/module_utils/fetch.py:81-85 | the entry whose version is requested is the first with that identifier: it matches and no earlier entry does |
| Fetch.FetchResult.constructor | collections/ansible_collections/community/yang/plugins/module_utils/fetch.py:107-115 | the caller's `result` holds the given `fetched` map and `failed_yang_models` list |
| Fetch.SchemaStore.constructor | collections/ansible_collections/community/yang/plugins/module_utils/fetch.py:30-35 | a new store has an empty cache, no catalogue and an empty identifier list |
| Fetch.SchemaStore.GetSchemaDescription | collections/ansible_collections/community/yang/plugins/module_utils/fetch.py:37-69 | raises `ValueError` when xmltodict is missing or the `<get>` is refused, changing nothing; otherwise stores the catalogue, appends its identifiers in catalogue order and returns the list |
| Fetch.SchemaStore.OneSchema | collections/ansible_collections/community/yang/plugins/module_utils/fetch.py:71-117 | a model reported found always comes with its text |
| Fetch.SchemaStore.GetOneSchema | collections/ansible_collections/community/yang/plugins/module_utils/fetch.py:71-117 | the outcome and the new `fetched`, `failed` and requests are those of `OneSchema`; one cache entry is added per fetched model; the catalogue is read when not yet known |
| Fetch.SchemaStore.GetSchemaAndDependants | collections/ansible_collections/community/yang/plugins/module_utils/fetch.py:119-137 | the outcome and the new state are those of `Dependants` |
| Fetch.SchemaStore.DependantsCases | collections/ansible_collections/community/yang/plugins/module_utils/fetch.py:71-137 | an unreadable catalogue raises; a listed model is requested once and its text stored and its imports returned, or the refusal raised; an unlisted model raises, or is appended to the failed list and `[]` returned when tolerated |
| Fetch.SchemaStore.StepProgresses | collections/ansible_collections/community/yang/plugins/module_utils/fetch.py:145-158 | a turn that goes on fetches a listed model or shortens the queue, so the loop ends |
| Fetch.SchemaStore.Finish | collections/ansible_collections/community/yang/plugins/module_utils/fetch.py:139-159 | a completed loop has drained the queue and returns its `(changed, counter)` |
| Fetch.SchemaStore.Turn | collections/ansible_collections/community/yang/plugins/module_utils/fetch.py:145-158 | one loop turn computes exactly `Step` |
| Fetch.SchemaStore.Run | collections/ansible_collections/community/yang/plugins/module_utils/fetch.py:139-159 | the returned outcome and the final `fetched`, `failed` and requests are those of `Finish` from a queue holding the root |
| Fetch.SchemaStore.TurnSkips | collections/ansible_collections/community/yang/plugins/module_utils/fetch.py:146-149 | a dequeued model already fetched is dropped and the counter decremented, nothing else changes |
| Fetch.SchemaStore.TurnQueues | collections/ansible_collections/community/yang/plugins/module_utils/fetch.py:151-158 | after a successful fetch the unfetched imports are queued in order, counted, and mark a change exactly when there is one |
| Fetch.SchemaStore.TurnRaises | collections/ansible_collections/community/yang/plugins/module_utils/fetch.py:151-153 | a failing `get_schema_and_dependants` ends the turn with its error |
| Fetch.SchemaStore.StepExtends | collections/ansible_collections/community/yang/plugins/module_utils/fetch.py:145-158 | a turn only appends requests and failures (failures only when tolerated), keeps fetched texts and stores only device replies |
| Fetch.SchemaStore.FinishExtends | collections/ansible_collections/community/yang/plugins/module_utils/fetch.py:145-158 | the same holds from any state to the end of the loop |
| Fetch.SchemaStore.StepCounts | collections/ansible_collections/community/yang/plugins/module_utils/fetch.py:145-158 | each turn adds to the counter what it queues and takes one off for a skip |
| Fetch.SchemaStore.FinishCounts | collections/ansible_collections/community/yang/plugins/module_utils/fetch.py:141-158 | at the end the counter has grown by the models requested or failed, less what was queued at the start |
| Fetch.SchemaStore.StepRequestsOnce | collections/ansible_collections/community/yang/plugins/module_utils/fetch.py:146-153 | a turn requests at most the model it dequeued, only when it is not fetched, and fetches it when it goes on |
| Fetch.SchemaStore.FinishRequestsOnce | collections/ansible_collections/community/yang/plugins/module_utils/fetch.py:145-158 | the loop's requests are distinct, none for a model fetched at the start, all fetched when it completes |
| Fetch.SchemaStore.StepMarksChange | collections/ansible_collections/community/yang/plugins/module_utils/fetch.py:154-158 | a turn sets `changed` exactly when it queues something |
| Fetch.SchemaStore.FinishMarksChange | collections/ansible_collections/community/yang/plugins/module_utils/fetch.py:140-158 | `changed` ends set exactly when some import was queued |
| Fetch.SchemaStore.StepCovers | collections/ansible_collections/community/yang/plugins/module_utils/fetch.py:151-158 | a turn keeps every name fetched, queued or failed, and covers the imports of the model it fetches |
| Fetch.SchemaStore.FinishCloses | collections/ansible_collections/community/yang/plugins/module_utils/fetch.py:145-158 | a completed loop leaves every covered name, and every import of a newly fetched model, fetched or failed |
| Fetch.SchemaStore.StepQueuesImports | collections/ansible_collections/community/yang/plugins/module_utils/fetch.py:154-158 | a turn queues only unfetched imports of the model it just fetched |
| Fetch.SchemaStore.FinishQueuesImports | collections/ansible_collections/community/yang/plugins/module_utils/fetch.py:145-158 | every name queued was unfetched at the start and is imported by a model fetched since |
| Fetch.SchemaStore.RunSkipsFetchedRoot | collections/ansible_collections/community/yang/plugins/module_utils/fetch.py:141-149 | a root fetched already returns `(False, 0)` and changes nothing |
| Fetch.SchemaStore.RunCountsModels | collections/ansible_collections/community/yang/plugins/module_utils/fetch.py:141-158 | the counter of a completed run is the number of models passed to `get_schema_and_dependants`: those requested plus those recorded as failed |
| Fetch.SchemaStore.RunNeverRefetches | collections/ansible_collections/community/yang/plugins/module_utils/fetch.py:145-153 | a run requests no model twice and none fetched before it; a completed run has fetched all it requested |
| Fetch.SchemaStore.RunKeepsFetched | collections/ansible_collections/community/yang/plugins/module_utils/fetch.py:145-158 | entries fetched before the run keep their text; new entries are device replies for listed models; the failed list only grows, and only when failures are tolerated |
| Fetch.SchemaStore.RunReportsChange | collections/ansible_collections/community/yang/plugins/module_utils/fetch.py:140-158 | `changed` is returned exactly when an import was queued; each was unfetched before the run and imported by a model it fetched |
| Fetch.SchemaStore.RunClosesImports | collections/ansible_collections/community/yang/plugins/module_utils/fetch.py:139-159 | after a completed run the root and every import of every model it fetched are fetched or failed |
| Fetch.SchemaStore.Unseen | collections/ansible_collections/community/yang/plugins/module_utils/fetch.py:154-156 | the imports queued are exactly those not fetched |
| Fetch.SchemaStore.EnqueueImports | collections/ansible_collections/community/yang/plugins/module_utils/fetch.py:154-158 | the inner loop appends the unfetched imports in order, adds their number to the counter and sets `changed` iff it queued one |
| ImportScan.LineCapture | collections/ansible_collections/community/yang/plugins/module_utils/fetch.py:131-132 | a line yields a capture exactly when it holds `import ` and a later ` {` with at least one character between; the capture runs from the first `import ` to the last ` {` |
| ImportScan.StripQuotes | collections/ansible_collections/community/yang/plugins/module_utils/fetch.py:133 | exactly the characters that are not `'` or `"` are kept |
| ImportScan.StripQuotesAppend | collections/ansible_collections/community/yang/plugins/module_utils/fetch.py:133 | removing quotes distributes over concatenation |
| ImportScan.StripQuotesChar | collections/ansible_collections/community/yang/plugins/module_utils/fetch.py:133 | a quote maps to nothing and any other character to itself, so with `StripQuotesAppend` the result is fixed character by character |
| ImportScan.ImportNamesSound | collections/ansible_collections/community/yang/plugins/module_utils/fetch.py:131-133 | no import name holds a quote or a line break |
| ImportScan.LineCaptureGreedy | collections/ansible_collections/community/yang/plugins/module_utils/fetch.py:131-132 | on `import a { import b {` the greedy group captures `a { import b` |
| ImportScan.LineCaptureOf | collections/ansible_collections/community/yang/plugins/module_utils/fetch.py:131-132 | the line `import X {` captures exactly `X` |
| ImportScan.CapturesOfLine | collections/ansible_collections/community/yang/plugins/module_utils/fetch.py:131-132 | `findall` over that one line gives `[X]` |
| ImportScan.ImportLine | collections/ansible_collections/community/yang/plugins/module_utils/fetch.py:131-133 | `import X {` declares exactly `X` with quotes removed |
| ImportScan.ImportNamesOfLines | collections/ansible_collections/community/yang/plugins/module_utils/fetch.py:131-133 | the names of a text are those of its lines, in text order |
| PyangCommon.OrderDict | pyang-plugin/ansible_old.py:15-29 | the two loops compute `OrderFields` |
| PyangCommon.Ordered | pyang-plugin/ansible_old.py:19-21 | a dict value is ordered recursively, anything else kept |
| PyangCommon.ListedPassKeys | pyang-plugin/ansible_old.py:17-22 | the first loop writes the listed keys the dict holds, in list order |
| PyangCommon.PresentFacts | pyang-plugin/ansible_old.py:17-22 | the listed keys written are exactly those listed and present, each once |
| PyangCommon.ListedPassValues | pyang-plugin/ansible_old.py:17-22 | each key it writes carries the input's value, ordered |
| PyangCommon.OthersPassKeys | pyang-plugin/ansible_old.py:23-28 | the second loop appends the unlisted keys in their original order |
| PyangCommon.UnlistedFacts | pyang-plugin/ansible_old.py:23-28 | the keys the second loop writes are exactly those not listed |
| PyangCommon.UnlistedDistinct | pyang-plugin/ansible_old.py:23-28 | distinct keys give distinct unlisted keys |
| PyangCommon.OthersPassStepKeys | pyang-plugin/ansible_old.py:23-28 | one turn adds its key exactly when it is unlisted and new |
| PyangCommon.OthersPassValues | pyang-plugin/ansible_old.py:23-28 | every unlisted key the second loop writes comes from the dict and carries its value ordered |
| PyangCommon.OthersPassKeepsListed | pyang-plugin/ansible_old.py:23-28 | a listed key reads after the second loop what the first loop wrote |
| PyangCommon.OrderDictKeys | pyang-plugin/ansible_old.py:15-29 | the result has exactly the input's keys, the listed ones first in list order, then the others in original order, each with its value ordered recursively |
| PyangCommon.OrderDictDistinct | pyang-plugin/ansible_old.py:15-29 | distinct keys stay distinct |
| PyangCommon.PreprocessStringFacts | pyang-plugin/ansible_old.py:246-248 | the result has no `:`, its only whitespace is single spaces, and its visible characters are the input's with `:` read as `;` |
| PyangCommon.PreprocessAround | pyang-plugin/ansible_old.py:246-248 | a whitespace run between two visible characters becomes exactly one space between the two preprocessed sides |
| Text.CollapseAround | pyang-plugin/ansible_old.py:247 | `re.sub(r'\s+', ' ', s)` turns a whitespace run between two visible characters into one space there and nowhere else |
| Text.DropSpacesRun | pyang-plugin/ansible_old.py:247 | a whitespace run is consumed up to the first visible character |
| Text.DropSpacesAppend | pyang-plugin/ansible_old.py:247 | dropping leading whitespace from text that ends visibly keeps whatever follows it |
| PyangCommon.RemoveSpacesReplace | pyang-plugin/ansible_old.py:246-248 | replacing `:` by `;` commutes with dropping whitespace, so the two steps see the same text |
| AnsibleOld.BaseType | pyang-plugin/ansible_old.py:49-56 | the node the chain ends at is no larger than the start |
| AnsibleOld.ResolveBaseType | pyang-plugin/ansible_old.py:49-56 | the loop computes `BaseType` |
| AnsibleOld.BaseTypeIsChainEnd | pyang-plugin/ansible_old.py:49-56 | the result is `u` iff `u` is on the `i_typedef` chain and has no typedef (the first such node) |
| AnsibleOld.BaseTypeFails | pyang-plugin/ansible_old.py:51-55 | the walk raises `AttributeError` exactly when a typedef on the chain has no `type` |
| AnsibleOld.StringCustomTypeLength | pyang-plugin/ansible_old.py:88-95 | a length `a..b` gives `{type: str, max_length: b}`; no length gives `{type: str}` |
| AnsibleOld.FindModule | pyang-plugin/ansible_old.py:70 | the module found is the first of the context with the prefix; none is found only when no module has it |
| AnsibleOld.IsDerivedIdentity | pyang-plugin/ansible_old.py:231-236 | true iff the base is reached by following `.base` links, the identity itself included |
| AnsibleOld.LineageTransitive | pyang-plugin/ansible_old.py:231-236 | derivation is transitive |
| AnsibleOld.DerivedMembers | pyang-plugin/ansible_old.py:221-230 | an identity is collected iff it is in the base's module and derives from the base |
| AnsibleOld.CollectDerivedIdentities | pyang-plugin/ansible_old.py:221-230 | the loop collects `DerivedIn`, in module order |
| AnsibleOld.IdentityChoices | pyang-plugin/ansible_old.py:200-236 | a name is an identityref choice iff an identity of the module with that name derives from the base, reflexively |
| AnsibleOld.TypeToAnsibleCases | pyang-plugin/ansible_old.py:116-151 | by the base type: enumeration choices in declaration order, `str` for a leafref without pointer, identity choices, the mapped name, or `ValueError` for an unmapped name |
| AnsibleOld.MissingTypeRaises | pyang-plugin/ansible_old.py:40-43 | a node without a type statement gets type `str`, which is not in the mapping, so it raises `ValueError` |
| AnsibleOld.TypeToAnsibleShape | pyang-plugin/ansible_old.py:97-151 | a dict result starts with `type: str` and has only `choices` or `max_length` besides; a name is `str` or a mapped value |
| AnsibleOld.LeafrefShape | pyang-plugin/ansible_old.py:153-177 | a leafref resolves to a result of the same shape |
| AnsibleOld.CustomTypeShape | pyang-plugin/ansible_old.py:68-86 | a custom type found gives a dict of that shape |
| AnsibleOld.EnumerationShape | pyang-plugin/ansible_old.py:58-66 | an enumeration gives `type: str` and `choices` |
| AnsibleOld.StringCustomTypeShape | pyang-plugin/ansible_old.py:88-95 | a string custom type gives `type: str` and at most `max_length` |
| AnsibleOld.KeyName | pyang-plugin/ansible_old.py:258 | an option name holds no `-` |
| AnsibleOld.YangToDict | pyang-plugin/ansible_old.py:250-302 | the loop computes `Convert` |
| AnsibleOld.VisitChild | pyang-plugin/ansible_old.py:252-300 | one turn advances `Fold` by one child |
| AnsibleOld.ChildEntry | pyang-plugin/ansible_old.py:253-300 | a turn's entry is `Entry` |
| AnsibleOld.EntryKept | pyang-plugin/ansible_old.py:254-293 | a child gets an entry iff it is a non-deprecated configuration leaf, leaf-list, container, list or choice |
| AnsibleOld.FoldFails | pyang-plugin/ansible_old.py:252-302 | the first child that raises ends the conversion with its error |
| AnsibleOld.FoldStep | pyang-plugin/ansible_old.py:252-300 | each turn writes the child's entry under its key name, or nothing |
| AnsibleOld.FoldAssign | pyang-plugin/ansible_old.py:252-300 | a loop that raises nothing builds the dict of the children's key names and entries |
| AnsibleOld.FoldEntryOk | pyang-plugin/ansible_old.py:252-300 | a loop that raises nothing converted every child it visited without error |
| AnsibleOld.ConvertKeys | pyang-plugin/ansible_old.py:250-302 | the keys are exactly the key names of the kept children, each value the entry of such a child |
| AnsibleOld.ConvertValue | pyang-plugin/ansible_old.py:250-302 | the value under a key is the entry of a child with that key name |
| AnsibleOld.LeafEntryRequired | pyang-plugin/ansible_old.py:259-275 | a leaf entry starts with `type`, its description and `required`, true iff `mandatory` is `"true"` |
| AnsibleOld.NodeEntryShape | pyang-plugin/ansible_old.py:277-291 | a container is a `dict`, a list a `list` with `elements: dict`, both with converted `suboptions` |
| AnsibleOld.ChoiceEntryShape | pyang-plugin/ansible_old.py:292-300 | a choice is a `str` whose choices are its case names in order |
| AnsibleOld.ProcessModule | pyang-plugin/ansible_old.py:238-244 | the output is the converted module with its keys ordered, or the conversion's error |
| AnsibleNext.UnionResults | pyang-plugin/ansible_next.py:366-368 | one result per member type |
| AnsibleNext.ProduceType | pyang-plugin/ansible_next.py:140-172 | computes `TypeOf`; a missing type statement raises `AttributeError` |
| AnsibleNext.NumericTypeTrans | pyang-plugin/ansible_next.py:308-325 | every integer type becomes `{type: int}` |
| AnsibleNext.OtherTypeTrans | pyang-plugin/ansible_next.py:387-401 | the translation the table names |
| AnsibleNext.EnumerationTrans | pyang-plugin/ansible_next.py:334-340 | `{type: str, choices: [enum names in declaration order]}` |
| AnsibleNext.UnionTrans | pyang-plugin/ansible_next.py:363-369 | the loop computes the union's `oneOf` translation |
| AnsibleNext.UnionMember | pyang-plugin/ansible_next.py:366-368 | one turn translates member `i` |
| AnsibleNext.ChildResults | pyang-plugin/ansible_next.py:252-263 | one result per child |
| AnsibleNext.ShortResults | pyang-plugin/ansible_next.py:287-293 | one result per substatement |
| AnsibleNext.CaseGroups | pyang-plugin/ansible_next.py:274-283 | one group per case |
| AnsibleNext.RootResults | pyang-plugin/ansible_next.py:123-136 | one result per child of the root |
| AnsibleNext.Producer | pyang-plugin/ansible_next.py:299-306 | dispatches on the keyword as the `producers` table does |
| AnsibleNext.ProduceContainer | pyang-plugin/ansible_next.py:240-265 | computes `ContainerSpec` |
| AnsibleNext.ProduceList | pyang-plugin/ansible_next.py:185-217 | computes `ListSpec` |
| AnsibleNext.ProduceLeafList | pyang-plugin/ansible_next.py:220-237 | computes `LeafListSpec` |
| AnsibleNext.ProduceLeaf | pyang-plugin/ansible_next.py:175-182 | computes `LeafSpec` |
| AnsibleNext.ProduceChoice | pyang-plugin/ansible_next.py:268-296 | computes `ChoiceSpec` |
| AnsibleNext.MergeCases | pyang-plugin/ansible_next.py:274-283 | the loop over the cases merges their children's results, stopping at the first error |
| AnsibleNext.MergeCase | pyang-plugin/ansible_next.py:275-283 | one turn merges one case |
| AnsibleNext.MergeShortCases | pyang-plugin/ansible_next.py:287-293 | the loop over the short-form cases merges their results |
| AnsibleNext.MergeShortCase | pyang-plugin/ansible_next.py:288-293 | one turn of it |
| AnsibleNext.MergeChildren | pyang-plugin/ansible_next.py:252-263 | `update` with every producer child's result, in order |
| AnsibleNext.MergeChild | pyang-plugin/ansible_next.py:253-263 | one turn of it |
| AnsibleNext.ListChildren | pyang-plugin/ansible_next.py:204-215 | `append` of every producer child's result, in order |
| AnsibleNext.ListChild | pyang-plugin/ansible_next.py:205-215 | one turn of it |
| AnsibleNext.ProduceSchema | pyang-plugin/ansible_next.py:119-137 | computes `Schema` |
| AnsibleNext.SchemaChild | pyang-plugin/ansible_next.py:123-136 | one turn of it |
| AnsibleNext.Emit | pyang-plugin/ansible_next.py:63-75 | the schema of the first module with its keys ordered, or its error |
| AnsibleNext.SchemaKeys | pyang-plugin/ansible_next.py:119-137 | succeeds iff no data-definition child with a producer fails; the keys are exactly those such children produce, each once |
| AnsibleNext.SchemaLast | pyang-plugin/ansible_next.py:123-128 | a key produced by several children reads the last one's value |
| AnsibleNext.ChoiceKeys | pyang-plugin/ansible_next.py:268-296 | a choice's keys are exactly those produced by its cases' children and its short-form cases; its own name does not appear |
| AnsibleNext.ProduceDistinct | pyang-plugin/ansible_next.py:175-296 | every producer returns distinct keys |
| AnsibleNext.ProduceKeys | pyang-plugin/ansible_next.py:175-265 | a leaf, leaf-list, or container/list under a non-list parent produces its qualified name alone; a container/list under a list produces `type` and `suboptions` holding the name |
| AnsibleNext.ContainerSuboptions | pyang-plugin/ansible_next.py:240-265 | succeeds iff no child fails; `{name: {type: dict, suboptions}}` (nested under a list parent), the suboptions having exactly the children's keys, later ones overriding |
| AnsibleNext.ListSuboptions | pyang-plugin/ansible_next.py:185-217 | the `suboptions` list holds one dict per producer child in order; under a non-list parent the list has its description and `elements: dict` |
| AnsibleNext.TypeChain | pyang-plugin/ansible_next.py:140-172 | follows typedefs to the end: integer types give `int`, table types their translation, other names `string`, a typedef without `type` `AttributeError` |
| AnsibleNext.UnionOk | pyang-plugin/ansible_next.py:363-369 | a union translates iff every member type does |
| AnsibleNext.UnionItems | pyang-plugin/ansible_next.py:363-369 | one `oneOf` entry per member type, in order, each its translation |
| AnsibleNext.UnionResultAt | pyang-plugin/ansible_next.py:366-368 | member `i`'s result is its type's translation |
| AnsibleNext.QualifiedParts | pyang-plugin/ansible_next.py:404-422 | the name is `module:name` on top, `top:name` when the parent's top differs, and the plain name otherwise |
| AnsibleNext.DataChildren | pyang-plugin/ansible_next.py:93-97 | exactly the data-definition children |
| AnsibleNext.Named | pyang-plugin/ansible_next.py:100-105 | exactly the data-definition children with that name |
| AnsibleNext.FindStmtByPath | pyang-plugin/ansible_next.py:83-116 | the loop computes `FindByPath` |
| AnsibleNext.WalkFacts | pyang-plugin/ansible_next.py:99-116 | the walk finds a data-definition node named by the last step, or fails with the "does not exist" message |
| AnsibleNext.FindFacts | pyang-plugin/ansible_next.py:83-116 | the same for a whole path; a path with no steps leaves `match` unbound |
| AnsibleNext.AbsoluteSteps | pyang-plugin/ansible_next.py:88-91 | `/n1/.../nk` walks exactly `n1, ..., nk` |
| AnsibleNext.OneStep | pyang-plugin/ansible_next.py:99-109 | one step finds the first data-definition child with the name, and fails iff there is none |
| AnsiblePlugin.Entry | pyang-plugin/ansible.py:41-59 | a child has an entry iff it is a leaf, leaf-list, container, list or choice |
| AnsiblePlugin.Entries | pyang-plugin/ansible.py:41-59 | one entry per child |
| AnsiblePlugin.YangToDict | pyang-plugin/ansible.py:39-60 | the loop computes `Convert` |
| AnsiblePlugin.ChildEntry | pyang-plugin/ansible.py:42-59 | one turn gives `Entry` |
| AnsiblePlugin.ConvertKeys | pyang-plugin/ansible.py:39-60 | the keys are exactly the `arg`s of the converted children, unchanged |
| AnsiblePlugin.ConvertDistinct | pyang-plugin/ansible.py:39-60 | no key twice |
| AnsiblePlugin.ConvertLast | pyang-plugin/ansible.py:41-59 | a name shared by several children reads the last one's entry |
| AnsiblePlugin.DescriptionText | pyang-plugin/ansible.py:44 | line breaks become spaces, so no line break is left; `''` without a description |
| AnsiblePlugin.LeafEntryFacts | pyang-plugin/ansible.py:42-47 | `required` iff there is no `default`; `type` is the first type statement's argument, or `''` |
| AnsiblePlugin.NodeEntryFacts | pyang-plugin/ansible.py:48-53 | a container is a `dict`, a list a `list`, each with its children converted as `suboptions` |
| AnsiblePlugin.ChoiceEntryFacts | pyang-plugin/ansible.py:54-59 | a choice is a `str` whose choices are its children's names in order |
| AnsiblePlugin.SamplePathNames | pyang-plugin/ansible.py:24-29 | `/n1/.../nk` and `n1/.../nk` both give back the names |
| PlainPython.ToPlainShape | roles/scaffold_rm_facts/filter_plugins/to_argspec.py:25-38 | the same kind of value, keys in order, list lengths and string contents; other values unchanged |
| PlainPython.ToPlainUnwrapped | roles/scaffold_rm_facts/filter_plugins/to_argspec.py:29-30 | no Ansible text wrapper is left at any depth |
| PlainPython.ToPlainWellFormed | roles/scaffold_rm_facts/filter_plugins/to_argspec.py:31-33 | dicts keep distinct keys |
| PlainPython.ToPlainFixed | roles/scaffold_rm_facts/filter_plugins/to_doc.py:30-44 | a value without wrappers is returned unchanged |
| PlainPython.ToPlainIdempotent | roles/scaffold_rm_facts/filter_plugins/to_doc.py:30-44 | converting twice is converting once |
| PlainPython.ToPlainEqual | roles/scaffold_rm_facts/filter_plugins/to_argspec.py:25-38 | the result compares equal to the input |
| ScaffoldArgspec.RetrieveMetadata | roles/scaffold_rm_facts/filter_plugins/to_argspec.py:40-45 | the loop computes `Metadata` |
| ScaffoldArgspec.MetadataFacts | roles/scaffold_rm_facts/filter_plugins/to_argspec.py:40-45 | exactly the metadata keys whose values are truthy are copied, so `required: False` and `default: 0` are dropped |
| ScaffoldArgspec.DiveEntries | roles/scaffold_rm_facts/filter_plugins/to_argspec.py:50-68 | one value per key, the dive of the input's value |
| ScaffoldArgspec.Dicts | roles/scaffold_rm_facts/filter_plugins/to_argspec.py:65 | the dict elements, no more |
| ScaffoldArgspec.DiveList | roles/scaffold_rm_facts/filter_plugins/to_argspec.py:63-65 | one dive per dict element, in order |
| ScaffoldArgspec.EntryWrites | roles/scaffold_rm_facts/filter_plugins/to_argspec.py:51-62 | one conditional write per entry key |
| ScaffoldArgspec.DiveInto | roles/scaffold_rm_facts/filter_plugins/to_argspec.py:48-69 | the loop computes `Dive` |
| ScaffoldArgspec.DiveValueOf | roles/scaffold_rm_facts/filter_plugins/to_argspec.py:51-68 | a turn stores `DiveValue` |
| ScaffoldArgspec.DiveElements | roles/scaffold_rm_facts/filter_plugins/to_argspec.py:65 | the comprehension computes `DiveList` |
| ScaffoldArgspec.BuildEntry | roles/scaffold_rm_facts/filter_plugins/to_argspec.py:52-62 | the writes into `result[k]` compute `OptionEntry` |
| ScaffoldArgspec.EntryHead | roles/scaffold_rm_facts/filter_plugins/to_argspec.py:52-55 | the metadata and `no_log` writes |
| ScaffoldArgspec.EntrySuboptionStep | roles/scaffold_rm_facts/filter_plugins/to_argspec.py:58-60 | one turn copies one suboption metadata key if present |
| ScaffoldArgspec.EntryOptions | roles/scaffold_rm_facts/filter_plugins/to_argspec.py:61-62 | under non-empty suboptions `options` is their dive |
| ScaffoldArgspec.EntryWithoutSuboptions | roles/scaffold_rm_facts/filter_plugins/to_argspec.py:56-57 | without suboptions nothing follows `no_log` |
| ScaffoldArgspec.OptionEntryMetadata | roles/scaffold_rm_facts/filter_plugins/to_argspec.py:53 | an entry keeps exactly the truthy metadata |
| ScaffoldArgspec.OptionEntryNoLog | roles/scaffold_rm_facts/filter_plugins/to_argspec.py:54-55 | `no_log: True` iff the key is sensitive |
| ScaffoldArgspec.OptionEntryOptions | roles/scaffold_rm_facts/filter_plugins/to_argspec.py:56-62 | `options` iff the suboptions are truthy, and then it is their dive |
| ScaffoldArgspec.OptionEntrySuboptionMetadata | roles/scaffold_rm_facts/filter_plugins/to_argspec.py:56-60 | suboption metadata is copied only under truthy suboptions, and then all that is present |
| ScaffoldArgspec.OptionEntryKeys | roles/scaffold_rm_facts/filter_plugins/to_argspec.py:51-62 | no other key is written |
| ScaffoldArgspec.DiveKeys | roles/scaffold_rm_facts/filter_plugins/to_argspec.py:48-69 | the dive of a dict has exactly its keys; a dict value becomes its option entry, a list value the dives of its dict elements, any other value stays |
| ScaffoldArgspec.DictsFacts | roles/scaffold_rm_facts/filter_plugins/to_argspec.py:65 | list values keep exactly their dict elements, in order |
| ScaffoldArgspec.ToArgspecErrors | roles/scaffold_rm_facts/filter_plugins/to_argspec.py:72-82 | a missing `DOCUMENTATION` or one that is not a dict raises the filter errors; a missing `options` raises `KeyError` |
| ScaffoldArgspec.ToArgspecOk | roles/scaffold_rm_facts/filter_plugins/to_argspec.py:79-82 | otherwise the result is the dive of the plain `options` |
| ScaffoldArgspec.SubNoMatch | roles/scaffold_rm_facts/filter_plugins/to_argspec.py:85-86 | after a rewrite no match of its word is left and no new match of another word appears |
| ScaffoldArgspec.SubUnchanged | roles/scaffold_rm_facts/filter_plugins/to_argspec.py:85-86 | a text without a match is unchanged |
| ScaffoldArgspec.PythonBooleansFacts | roles/scaffold_rm_facts/filter_plugins/to_argspec.py:84-86 | after both rewrites no `":` followed by whitespace and `true`/`false` is left; a text without one is unchanged |
| ScaffoldDoc.OrderedKeys | roles/scaffold_rm_facts/filter_plugins/to_doc.py:53-58 | every key listed is a key of the dict |
| ScaffoldDoc.OrderedFieldsKeys | roles/scaffold_rm_facts/filter_plugins/to_doc.py:47-67 | exactly the input's keys, each once, each with its value reordered |
| ScaffoldDoc.PriorityFirst | roles/scaffold_rm_facts/filter_plugins/to_doc.py:53 | the priority keys present come first, in priority order; later keys are not priority keys |
| ScaffoldDoc.OthersSorted | roles/scaffold_rm_facts/filter_plugins/to_doc.py:56-58 | the remaining keys are sorted |
| ScaffoldDoc.KeyOrderFacts | roles/scaffold_rm_facts/filter_plugins/to_doc.py:51-58 | for keys without duplicates the new order lists each key once and no other |
| ScaffoldDoc.UnlistedSorted | roles/scaffold_rm_facts/filter_plugins/to_doc.py:56-58 | dropping the priority keys from a sorted list keeps it sorted |
| ScaffoldDoc.OrderedKeysStable | roles/scaffold_rm_facts/filter_plugins/to_doc.py:51-63 | reordering a reordered dict finds its keys already in place |
| ScaffoldDoc.OrderedFieldsStable | roles/scaffold_rm_facts/filter_plugins/to_doc.py:61-67 | a dict whose values are stable under reordering is stable itself |
| ScaffoldDoc.OrderDocIdempotent | roles/scaffold_rm_facts/filter_plugins/to_doc.py:61-67 | ordering twice is ordering once |
| ScaffoldDoc.ToDocOrdered | roles/scaffold_rm_facts/filter_plugins/to_doc.py:70-82 | the filter's output is already in its own order |
| JsonSchema.ScalarOptionsFacts | roles/resource_module/filter_plugins/to_docoptions.py:37-46 | scalar options keep description and type, copy `default` and `version_added`, turn `enum` into `choices`, carry `required: True` exactly when required |
| DocOptions.PropResults | roles/resource_module/filter_plugins/to_docoptions.py:25-27 | one conversion per property, in order |
| DocOptions.DiveErrors | roles/resource_module/filter_plugins/to_docoptions.py:16-33 | the five filter errors: no description, no type, an object without properties, an array without items or without properties in them |
| DocOptions.DiveScalar | roles/resource_module/filter_plugins/to_docoptions.py:37-46 | a str, bool or int node gives its scalar options |
| DocOptions.DiveOther | roles/resource_module/filter_plugins/to_docoptions.py:18 | another type keeps only its description |
| DocOptions.SuboptionsKeys | roles/resource_module/filter_plugins/to_docoptions.py:22-36 | suboptions exist iff every property converts; their keys are the property names |
| DocOptions.SuboptionValue | roles/resource_module/filter_plugins/to_docoptions.py:25-27 | each suboption is its property's conversion |
| DocOptions.PropResultRequired | roles/resource_module/filter_plugins/to_docoptions.py:26 | a child is required iff its name is in the parent's `required` list |
| DocOptions.SuboptionsFirstErr | roles/resource_module/filter_plugins/to_docoptions.py:25-27 | the first property that fails gives the error |
| DocOptions.ToDocoptionsRoot | roles/resource_module/filter_plugins/to_docoptions.py:49-54 | the filter succeeds only on an object or array root and returns its suboptions under `options` |
| ResourceArgspec.ArrayEntries | roles/resource_module/filter_plugins/to_argspec.py:26-36 | one conditional write per array key |
| ResourceArgspec.ArgspecScalarEntries | roles/resource_module/filter_plugins/to_argspec.py:37-45 | one conditional write per scalar key |
| ResourceArgspec.PropResults | roles/resource_module/filter_plugins/to_argspec.py:22-24 | one conversion per property, in order |
| ResourceArgspec.DiveErrors | roles/resource_module/filter_plugins/to_argspec.py:16-32 | no type, an object without properties, an array without `elements` (a `KeyError`, read first), without items or without properties in them |
| ResourceArgspec.DiveArray | roles/resource_module/filter_plugins/to_argspec.py:25-36 | an array converts iff it has `elements` and `items` with convertible `properties`, and then gives the array argspec |
| ResourceArgspec.ArrayArgspecFacts | roles/resource_module/filter_plugins/to_argspec.py:26-36 | the options, `elements` iff truthy, `type: list` iff at least one property |
| ResourceArgspec.DiveScalar | roles/resource_module/filter_plugins/to_argspec.py:37-45 | a str, bool or int node gives its scalar argspec |
| ResourceArgspec.ArgspecScalarFacts | roles/resource_module/filter_plugins/to_argspec.py:37-45 | `default` and `version_added` copied, `enum` as `choices`, `required` and `type` always |
| ResourceArgspec.DiveOther | roles/resource_module/filter_plugins/to_argspec.py:15 | another type gives `{}` |
| ResourceArgspec.OptionsKeys | roles/resource_module/filter_plugins/to_argspec.py:18-24 | options exist iff every property converts; their keys are the property names |
| ResourceArgspec.OptionValue | roles/resource_module/filter_plugins/to_argspec.py:22-24 | each option is its property's conversion |
| ResourceArgspec.PropResultRequired | roles/resource_module/filter_plugins/to_argspec.py:23 | `required` iff the owner lists the name |
| ResourceArgspec.OptionsFirstErr | roles/resource_module/filter_plugins/to_argspec.py:22-24 | the first failing property gives the error |
| ResourceArgspec.ToArgspecRoot | roles/resource_module/filter_plugins/to_argspec.py:48-51 | succeeds only on an object or array root and returns its `options` |
| Jref.PropResults | jref.py:40-42 | one conversion per property, in order |
| Jref.DiveErrors | jref.py:31-51 | after the printed warning the next subscript raises: `KeyError` for description, type, properties or items, `TypeError` for a non-dict, `AttributeError` for non-dict properties |
| Jref.DiveScalar | jref.py:52-61 | a str, bool or int node gives the same scalar options as the filter |
| Jref.SuboptionsKeys | jref.py:36-51 | suboptions exist iff every property converts; their keys are the property names |
| Jref.SuboptionValue | jref.py:40-42 | each suboption is its property's conversion |
| Jref.DiveAgrees | jref.py:28-64 | wherever the script or `to_docoptions` converts a node, both do, to the same options |
| Jref.SuboptionsAgree | jref.py:40-51 | the suboptions agree the same way |
| Jref.PropResultAgrees | jref.py:41-42 | one property converts alike in both |
| Jref.ScriptAgrees | jref.py:73 | the script's result is the filter's root node before its suboptions go under `options` |
| Insert.VisitedFields | insert.py:9-13 | the loop's state over a dict keeps its length |
| Insert.VisitedItems | insert.py:15-19 | the loop's state over a list keeps its length |
| Insert.YamlDocument.constructor | insert.py:27 | a document holds the loaded value |
| Insert.YamlDocument.StringifyOnOff | insert.py:7-19 | the document afterwards holds `Stringified` of what it held |
| Insert.YamlDocument.Set | insert.py:50 | `data[key] = value` on a dict |
| Insert.YamlDocument.InsertConfig | insert.py:41-52 | computes `UpdatedBuilder` on the document, and on success leaves the document equal to the value returned |
| Insert.YamlDocument.QuoteVersions | insert.py:51-52 | computes `Requote`; on success the document holds the result |
| Insert.NavigateTo | insert.py:30-32 | the loop computes `Navigate`, raising at the first failing subscript |
| Insert.Extract | insert.py:29-52 | computes `ExtractAndUpdate` |
| Insert.StringifiedShape | insert.py:8-19 | the same kind of value, keys in order and list lengths; a scalar is unchanged |
| Insert.StringifiedEqual | insert.py:8-19 | every value compares equal to what it was; only the string class changes |
| Insert.StringifyValueEqual | insert.py:9-17 | one value compares equal to what it was after quoting |
| Insert.StringifiedQuoted | insert.py:9-17 | afterwards every `on`/`off` value at any depth is double-quoted |
| Insert.StringifyValueQuoted | insert.py:10-17 | one visited value is double-quoted if it reads `on`/`off`, and its contents likewise |
| Insert.StringifiedFixed | insert.py:8-19 | a document whose `on`/`off` values are quoted is unchanged |
| Insert.StringifyValueFixed | insert.py:10-17 | a value already quoted is left as it is |
| Insert.StringifiedIdempotent | insert.py:7-19 | running it twice is running it once |
| Insert.NavigateStops | insert.py:31-32 | a failing subscript ends the walk with its error |
| Insert.NavigateAppend | insert.py:31-32 | walking `a + b` is walking `a` and then `b` from where it ends |
| Insert.NavigateDotted | insert.py:31 | a dotted key of dot-free segments walks exactly those segments |
| Insert.SpliceConfigFacts | insert.py:44 | succeeds iff the document is a dict whose `options` is a dict; sets `options.config`, changing nothing else |
| Insert.ExtractWithoutDocumentation | insert.py:41-42 | without a truthy `DOCUMENTATION` the file only has its `on`/`off` values quoted |
| Insert.RequoteErrors | insert.py:51-52 | a missing `XML_NAMESPACE` or `GENERATOR_VERSION` raises `KeyError`, the first first |
| Insert.RequoteFacts | insert.py:51-52 | both become double-quoted; every other entry is kept |
| Insert.QuoteString | insert.py:51-52 | quoting a string keeps its content |
| Insert.ExtractWithDocumentation | insert.py:41-52 | with a truthy `DOCUMENTATION`, the result is the load error, the splice error, or the version-quoted file with the dumped spliced document |

## Left out

- NETCONF transport and XML parsing: the device is the `Device` value (catalogue and replies), and the `<get>`/`<get-schema>` request texts, `to_text` and `xmltodict` are not modelled.
- The `_debug` callbacks of `SchemaStore` and all logging (`logging`, `display.debug`), and the diagnostic global `key_count` of `ansible_old.py`.
- `action/fetch.py` (argument checks, the capability check, file writes and the loop over all schemas that sums `run` counters) and `modules/fetch.py` (documentation only).
- Regular expressions are specified by scanners: `import (.+) {` per line (`.` stops at a line break, the greedy group ends at the last ` {`), `\s+` and `":\s*true`/`":\s*false` with `\s` read as `Text.IsSpace`.
- Fetch.SchemaStore.GetOneSchema: the content of the cache entry is not modelled; the entry is always the empty dict the source appends.
- Serialization: `json.dumps`, `yaml.dump`, `ez_yaml`, ruamel's load and dump, and `str()` of a dict are function parameters (`dumps`, `load`, `dump`, `render`) or left out, so the resource `to_argspec` returns the options value, `to_docoptions` and `to_doc` stop before the YAML dump, and the `AnsibleDumper` settings are not modelled.
- `jsonref` reference resolution: the filters receive the already-resolved schema.
- The `print` warnings of `jref.py` and its `pprint` formatting (`u_to_str`).
- Python 2 shims: `iteritems` is read as `items()`, `unicode` as `str`.
- pyang internals (`types.is_base_type`, `statements.data_definition_keywords`, `i_ctx.modules`, `i_children`, `i_module`, `i_including_module`) are given sets and fields of the model; the `path` argument of `yang_to_dict`, which the code never reads, is omitted.
- Cyclic typedef or identity chains: the datatype embeds pointers, so every chain is finite.
- `ansible_old.py`'s `emit` path split and `process_module` for more than one module, and the plugins' option registration (`add_opts`, `setup_ctx`, `setup_fmt`, `add_output_format`).
- `to_examples.py` and both `rm_templates/interfaces.py` parser tables.
- Insert.YamlDocument.StringifyOnOff: nested dicts and lists are visited as fresh child documents whose result is written back, so aliasing between the selected subtree and the rest of the input document is not modelled (the input document is never written back).
- Insert.Extract: file reading and writing, the `argparse` front end (`main`) and the `explicit_start`/indent settings are left out.
- Object identity in Python dicts (two equal keys are the same key) is modelled by `Put` replacing the first occurrence; every result is proved to keep keys distinct where the input has them distinct.
