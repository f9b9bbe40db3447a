# docsnaps, modelled in Dafny

docsnaps is a Django app that keeps snapshots of online documents (terms of
service, privacy policies) one document instance at a time. A document
instance is a document in one language at one URL. Plugin modules supply
these instances as graphs of model instances. An `install` command checks a
plugin and loads its graphs into the database. A `run` command selects the
enabled instances and fetches them, then applies any installed transformer
to the text. The repository holds two generations of the code:

- a company/service schema, under `src/docsnaps` and `docsnaps`:
  Company → Service → Document, Language, DocumentsLanguages and Transform;
- a flat schema, under `src/django_docsnaps` and `src/docsnaps/models.py`:
  Document, Language and DocumentsLanguages.

This project models the logic of both generations:

- **Loading.** The loader of each schema is a class whose database is a
  class with one `map` field per table, keyed by the table's natural key.
  Each loader is proved equal, section by section, to a pure function
  `LoadGraph`. The lemmas state what a load does:
  - it only adds rows;
  - it never changes an existing record, except for the flat schema's url
    update;
  - which warnings it emits and in what order;
  - a second identical load changes nothing;
  - a database error rolls every table back.
- **Plugin validation** is one shared module. The interface check finds the
  first missing or non-callable name. The models check finds the first
  item that is not a DocumentsLanguages, or whose graph misses a required
  class.
- **Graph flattening** is a queue-based breadth-first walk over
  foreign-key parents. It is an imperative loop, proved equal to a
  level-order specification, and to be a permutation of a reference
  depth-first enumeration. The graphs of both schemas are flattened and
  checked exactly.
- **Job selection.** This covers:
  - the enabled-job filter;
  - the "latest snapshot" anti-join and the dictionary built from it;
  - the per-job lookup;
  - the raw LEFT JOIN query of the company schema;
  - the loop over jobs.
- **Transformer resolution.** The module name and class names are derived
  from the service, document and language names, the language-specific
  class wins over the document class, and the text is left unchanged when
  neither exists.
- **Column types and routing.** This covers the SQL type builders of the
  custom fields `FixedCharField` and `MariadbTimestampField` (the latter
  changes its default the first time it is asked), and the three routing
  decisions of the database router.

Conventions used throughout:

- Datetimes are integers.
- Strings are ASCII for the purposes of `lower()` and `title()`.
- A `str()` Django supplies by default (for a model without `__str__`) is
  the constant "<Model> object".

Things outside the model enter as parameters:

- the database error a query may raise (an index of the failing graph or
  section);
- the HTTP outcome of a request;
- the importable transformer classes (a map from module name to class
  name to text function);
- what `hasattr`, `callable` and `get_models()` say about a plugin module.

The router file exists twice, as docsnaps/routers.py and
src/docsnaps/routers.py. The two copies are identical, and one module
models both.

## Model

| member | source | states |
|---|---|---|
| Common.GetOrCreate | src/docsnaps/management/commands/_install.py:372-374 | a row is created exactly when the key is absent; an existing row is returned and the table is unchanged; otherwise the incoming record is stored under the key and every other row is kept |
| Common.GetOrCreateTwice | src/docsnaps/management/commands/_install.py:356-358 | a second get-or-create of the same key creates nothing, changes nothing and returns what the first stored |
| Text.Lower | src/django_docsnaps/management/commands/_install.py:365 | `lower()` keeps the length, leaves no upper-case letter, keeps letters letters and leaves every other character as it was; each character is lowered on its own (`lower(s)[i] == lower(s[i])`) |
| Text.TitleAfter | src/docsnaps/management/commands/_run.py:77-78 | `title()` keeps the length and every non-letter, and each letter stays the same letter, only its case may change |
| Text.TitleIdempotent | src/docsnaps/management/commands/_run.py:77-78 | title-casing twice is title-casing once |
| Text.TitleShape | src/docsnaps/management/commands/_run.py:77-78 | after `title()`, a letter that starts a run of letters is upper case and every other letter is lower case |
| Text.ReplaceChar | src/docsnaps/management/commands/_run.py:67 | `replace(a, b)` replaces exactly the occurrences of `a`, keeps the length and leaves no `a` behind |
| Text.RemoveChar | src/docsnaps/management/commands/_run.py:77 | `replace(' ', '')` leaves no space, never grows, adds no character and keeps a string without spaces unchanged; a one-character string becomes empty exactly when it is the removed character |
| Text.RemoveCharAppend | src/docsnaps/management/commands/_run.py:77 | removal works piece by piece: removing from `a + b` is removing from `a` followed by removing from `b`, so the remaining characters keep their order |
| Text.Decimal | docsnaps/models.py:57 | `str(n)` is a non-empty string of digits without a leading zero |
| Text.DecimalRoundTrip | docsnaps/models.py:57 | reading the digits of `str(n)` back gives `n` |
| Text.DecimalInjective | docsnaps/models.py:57 | distinct numbers print differently |
| Text.BoolStr | src/docsnaps/management/commands/_install.py:345-348 | `str(b)` is "True" when `b` holds and "False" when it does not |
| Text.OptionStr | src/docsnaps/management/commands/_install.py:345-348 | `str()` of a present value is the value itself, and `str(None)` is "None" |
| Text.Join | docsnaps/models.py:115 | joining no parts gives the empty string, and joining one part gives that part |
| Text.JoinAppend | docsnaps/models.py:115 | joining one more part appends the separator and then that part, so two or more parts come out in order with one separator between neighbours |
| ModelGraph.ParentOf | src/docsnaps/management/commands/_utils.py:56-58 | a field enqueues at most one instance, and exactly one when it is a ForeignKey whose instance is set |
| ModelGraph.ParentsOfColumns | src/docsnaps/management/commands/_utils.py:55-58 | a model without foreign keys enqueues nothing |
| ModelGraph.ParentsOfOneForeignKey | src/docsnaps/management/commands/_utils.py:55-58 | a model with one foreign key enqueues that key's instance when set |
| ModelGraph.ParentsOfTwoForeignKeys | src/docsnaps/management/commands/_utils.py:55-58 | a model with two foreign keys enqueues their instances in field order, each only when set |
| ModelGraph.StepRemovesHead | src/docsnaps/management/commands/_utils.py:53-59 | one round of the walk removes exactly the popped instance from the trees still queued, so the walk terminates |
| ModelGraph.Classes | src/docsnaps/management/commands/_install.py:200-201 | `set(m.__class__ for m in ...)` holds the class of every instance yielded and nothing else |
| ModelGraph.EnqueueParents | src/docsnaps/management/commands/_utils.py:55-58 | the field loop appends the set foreign-key instances to the queue in field order |
| ModelGraph.FlattenModelGraph | src/docsnaps/management/commands/_utils.py:52-59 | the yielded sequence is the level-order walk; the model passed in comes first; every instance of the tree is yielded exactly as often as it occurs in it |
| ModelGraph.Bfs | src/docsnaps/management/commands/_utils.py:52-59 | the walk yields exactly as many instances as the queued trees hold |
| ModelGraph.BfsHead | src/docsnaps/management/commands/_utils.py:53-59 | the instance at the head of the queue is yielded first |
| ModelGraph.BfsPermutation | src/docsnaps/management/commands/_utils.py:52-59 | the walk yields a permutation of the trees in the queue |
| ModelGraph.BfsLevels | src/docsnaps/management/commands/_utils.py:53-59 | breadth first: everything already queued is yielded, in queue order, before the parents it enqueued |
| ModelGraph.BfsPrefix | src/docsnaps/management/commands/_utils.py:53-59 | instances queued in front are yielded first, and their parents go behind the rest of the queue |
| ModelGraph.YieldedOnlyReachable | src/docsnaps/management/commands/_utils.py:56-58 | only instances reachable through set foreign keys are yielded, so an unset parent and its ancestors never appear |
| PluginValidation.CheckCallables | src/docsnaps/management/commands/_install.py:135-147 | the check passes exactly when every name is present and callable; otherwise it reports the first failing name, as absent or as not callable |
| PluginValidation.ValidateInterface | src/docsnaps/management/commands/_install.py:135-147 | the interface check passes exactly when `get_models` and `transform` are both present and callable |
| PluginValidation.ValidateInterfaceOrder | src/django_docsnaps/management/commands/_install.py:119-132 | the interface check passes exactly when `get_models` and `transform` are both callable; a failing `get_models` is reported before `transform` is looked at |
| PluginValidation.MissingClasses | src/docsnaps/management/commands/_install.py:200-202 | a required class is missing exactly when no instance the walk yields has it |
| PluginValidation.ItemError | src/docsnaps/management/commands/_install.py:199-213 | an item passes exactly when it is a DocumentsLanguages whose graph reaches every required class |
| PluginValidation.CheckItems | src/docsnaps/management/commands/_install.py:198-213 | the items pass exactly when each passes; otherwise the error is the first failing item's |
| PluginValidation.MissingListShape | src/docsnaps/management/commands/_install.py:206-208 | the missing-class list names nothing for no class, the class's `str()` for one class, and for any two of the five required classes both `str()`s, in the fixed order Company, Service, Document, Language, DocumentsLanguages, joined by ", " |
| PluginValidation.Ordered | src/docsnaps/management/commands/_install.py:202-208 | iterating the difference set yields exactly the classes that are both in the fixed order and missing, never more than the order holds |
| PluginValidation.TypeStrings | src/docsnaps/management/commands/_install.py:208 | `map(str, classes)`: one `str()` per class, in the same positions |
| PluginValidation.MissingListOne | src/docsnaps/management/commands/_install.py:206-208 | one missing class is listed as its `str()` alone |
| PluginValidation.MissingListPair | src/docsnaps/management/commands/_install.py:206-208 | any two missing classes are listed as both `str()`s in the fixed order, separated by ", " |
| FlatInstall.LanguageWarning | src/django_docsnaps/management/commands/_install.py:360-372 | an existing Language always warns; a sentence naming the stored and the incoming name is added exactly when they differ ignoring case |
| FlatInstall.Join2 | src/django_docsnaps/management/commands/_install.py:371 | `' '.join([a, b])` is `a`, one space, then `b` |
| FlatInstall.LanguageWarningAsWritten | src/django_docsnaps/management/commands/_install.py:365-371 | as written: names equal ignoring case give the bare "already exists" warning |
| FlatInstall.LanguageWarningAsWrittenHidesNames | src/django_docsnaps/management/commands/_install.py:369-370 | as written, the warning is the same whatever the two differing names are |
| FlatInstall.LanguageWarningAsWrittenExample | src/django_docsnaps/management/commands/_install.py:366-370 | as written, "English" against "Anglais" under code "en" reports the names "en" and "en" |
| FlatInstall.LanguageWarningNamesBoth | src/django_docsnaps/management/commands/_install.py:366-371 | the corrected warning differs for different stored names |
| FlatInstall.LanguageWarningNamesIncoming | src/django_docsnaps/management/commands/_install.py:366-371 | the corrected warning differs for different incoming names |
| FlatInstall.DocumentExistsWarning | src/django_docsnaps/management/commands/_install.py:349-351 | the Document warning names the incoming Document right after its fixed head |
| FlatInstall.LanguageExistsWarning | src/django_docsnaps/management/commands/_install.py:360-364 | the Language warning names the ISO 639-1 code right after its fixed head |
| FlatInstall.UrlUpdatedWarning | src/django_docsnaps/management/commands/_install.py:390-393 | the url warning names the old url right after its head and ends with the new url followed by `".` |
| FlatInstall.DocumentStep | src/django_docsnaps/management/commands/_install.py:343-352 | the Document section warns exactly when the (module, name) key was already stored, with the Document warning |
| FlatInstall.LanguageStep | src/django_docsnaps/management/commands/_install.py:354-372 | the Language section warns exactly when the code was already stored, with the Language warning about the stored record |
| FlatInstall.InstanceStep | src/django_docsnaps/management/commands/_install.py:374-394 | the DocumentsLanguages section warns exactly when the row existed with a different url, naming the old and the new url |
| FlatInstall.LoadGraph | src/django_docsnaps/management/commands/_install.py:343-394 | after a load the Document, the Language and the DocumentsLanguages row are stored, the row holds the incoming url, and at most three warnings are given |
| FlatInstall.DocumentStepTables | src/django_docsnaps/management/commands/_install.py:344-348 | the Document section adds at most the (module, name) key, keeps every stored Document, and touches no other table |
| FlatInstall.LanguageStepTables | src/django_docsnaps/management/commands/_install.py:355-359 | the Language section adds at most the code, never changes a stored name, and touches no other table |
| FlatInstall.InstanceStepTables | src/django_docsnaps/management/commands/_install.py:376-389 | a new DocumentsLanguages gets the incoming url and `is_enabled == not disabled`; an existing one keeps `is_enabled` and takes the incoming url; no other row changes |
| FlatInstall.LoadGraphTables | src/django_docsnaps/management/commands/_install.py:343-389 | the whole load: Documents and Languages only grow; the DocumentsLanguages row is inserted, or only its url is updated |
| FlatInstall.LoadGraphWarnings | src/django_docsnaps/management/commands/_install.py:349-394 | the warnings, in order: Document exists, Language exists, and url updated, naming the old and the new url when they differ |
| FlatInstall.FirstLoadIsClean | src/django_docsnaps/management/commands/_install.py:343-394 | loading into an empty store inserts the three records and warns about nothing |
| FlatInstall.LoadGraphIdempotent | src/django_docsnaps/management/commands/_install.py:343-394 | loading the same graph again changes nothing, whatever the disabled flag says, and warns only that the Document and the Language exist |
| FlatInstall.ReinstallUpdatesUrl | src/django_docsnaps/management/commands/_install.py:386-394 | reinstalling with a new url overwrites only the url and warns last with the old and the new url |
| FlatInstall.Database.GetOrCreateDocument | src/django_docsnaps/management/commands/_install.py:345-348 | the Documents table after `get_or_create`, and what it returns |
| FlatInstall.Database.GetOrCreateLanguage | src/django_docsnaps/management/commands/_install.py:356-359 | the Languages table after `get_or_create`, and what it returns |
| FlatInstall.Database.GetOrCreateInstance | src/django_docsnaps/management/commands/_install.py:378-384 | the DocumentsLanguages table after `get_or_create` with defaults, and what it returns |
| FlatInstall.Database.SaveInstance | src/django_docsnaps/management/commands/_install.py:388-389 | `save()` overwrites exactly the one row |
| FlatInstall.Database.Restore | src/django_docsnaps/management/commands/_install.py:79-91 | the rollback of the atomic block brings back the saved tables |
| FlatInstall.ModelLoader.constructor | src/django_docsnaps/management/commands/_install.py:253-270 | construction loads the graph: the store and the warnings are those of `LoadGraph`, and `load_successful` is set |
| FlatInstall.ModelLoader.Load | src/django_docsnaps/management/commands/_install.py:343-407 | the three sections in order give `LoadGraph`'s tables and warnings, then `load_successful` |
| FlatInstall.ModelLoader.LoadDocument | src/django_docsnaps/management/commands/_install.py:343-352 | the Document section's tables and warning |
| FlatInstall.ModelLoader.LoadLanguage | src/django_docsnaps/management/commands/_install.py:354-372 | the Language section's tables and warning |
| FlatInstall.ModelLoader.LoadInstance | src/django_docsnaps/management/commands/_install.py:374-394 | the DocumentsLanguages section's tables, url update and warning |
| FlatInstall.LoadAllKeepsRows | src/django_docsnaps/management/commands/_install.py:81-84 | no load removes a row or changes a Document, a Language or an `is_enabled` |
| FlatInstall.DuplicateGraphLoadsOnce | src/tests/install/test_module_models_load.py:103-125 | a module that returns the same graph twice leaves one DocumentsLanguages row, with the original url and `is_enabled` set |
| FlatInstall.DisabledFlagStoresDisabled | src/tests/install/test_module_models_load.py:70-81 | with `--disabled`, the new DocumentsLanguages row is stored disabled |
| FlatInstall.LoadModels | src/django_docsnaps/management/commands/_install.py:77-100 | a database error in any graph rolls every table back and gives the CommandError text; otherwise the tables and warnings are `LoadAll`'s; no graph at all ends in the unbound-loader error |
| FlatInstall.ValidateModels | src/django_docsnaps/management/commands/_install.py:157-201 | the models pass exactly when the value is a non-empty iterable of complete DocumentsLanguages graphs; emptiness is reported before non-iterability, and any other error is that of the first failing item, every item before it passing |
| FlatInstall.InstanceParents | src/django_docsnaps/management/commands/_install.py:183-185 | a DocumentsLanguages instance enqueues its document and then its language, each when set |
| FlatInstall.FlatGraphFlattening | src/tests/test_command_utils.py:23-32 | the flat graph flattens to [DocumentsLanguages, Document, Language], leaving out an unset one |
| FlatInstall.FlatGraphMissing | src/django_docsnaps/management/commands/_install.py:177-193 | exactly the unset Document and/or Language are reported missing; the complete graph passes |
| ServiceInstall.WarningText | src/docsnaps/management/commands/_install.py:339-350 | the warning starts with the prefix naming the existing record; with no field it is the prefix, with one field the prefix then that field's existing and discarded value |
| ServiceInstall.CompanyWarning | src/docsnaps/management/commands/_install.py:375-377 | the Company warning is the prefix naming the stored company, then the stored and the discarded `website` |
| ServiceInstall.ServiceWarning | src/docsnaps/management/commands/_install.py:385-387 | the Service warning is the prefix naming the stored service, then the stored and the discarded `website` |
| ServiceInstall.LanguageWarning | src/docsnaps/management/commands/_install.py:400-402 | the Language warning is the prefix naming the stored language, then the stored and the discarded `name` |
| ServiceInstall.TransformWarning | src/docsnaps/management/commands/_install.py:428-432 | the Transform warning names the plugin module right after "Transform: Module " |
| ServiceInstall.CompanyStep | src/docsnaps/management/commands/_install.py:370-377 | the Company section stores the company under its name when absent, keeps a stored one, and touches no other table |
| ServiceInstall.ServiceStep | src/docsnaps/management/commands/_install.py:379-387 | the Service section stores the service under (company, name) when absent, keeps a stored one, and touches no other table |
| ServiceInstall.DocumentStep | src/docsnaps/management/commands/_install.py:389-393 | the Document section stores the document under (service, name) when absent, keeps a stored one, and touches no other table |
| ServiceInstall.LanguageStep | src/docsnaps/management/commands/_install.py:395-402 | the Language section stores the language under its code when absent, keeps a stored one, and touches no other table |
| ServiceInstall.InstanceStep | src/docsnaps/management/commands/_install.py:404-422 | the DocumentsLanguages section stores the row under (document, language) when absent, keeps a stored one, and touches no other table |
| ServiceInstall.TransformStep | src/docsnaps/management/commands/_install.py:424-432 | the Transform section stores the transform under (document, module) when absent, keeps a stored one, and touches no other table |
| ServiceInstall.LoadGraph | src/docsnaps/management/commands/_install.py:368-434 | after a load all six keys of the graph are stored, and at most five warnings are given |
| ServiceInstall.GenerateWarning | src/docsnaps/management/commands/_install.py:339-350 | the warning is the fixed prefix, then for each field in order its existing and then its discarded value; it always starts with the prefix |
| ServiceInstall.InstanceDiffs | src/docsnaps/management/commands/_install.py:412-416 | at most one field differs: `url` when the urls differ, otherwise `is_enabled`, and none exactly when the rows are equal |
| ServiceInstall.LoadGraphTables | src/docsnaps/management/commands/_install.py:371-427 | each of the six tables gains at most the graph's key, no stored row changes, and a new row holds the incoming values (a new Transform has priority 0) |
| ServiceInstall.CompanyStepWarnings | src/docsnaps/management/commands/_install.py:372-377 | the Company section warns exactly when the stored website differs from the incoming one |
| ServiceInstall.ServiceStepWarnings | src/docsnaps/management/commands/_install.py:381-387 | the Service section warns exactly when the stored website differs |
| ServiceInstall.LanguageStepWarnings | src/docsnaps/management/commands/_install.py:397-402 | the Language section warns exactly when the stored name differs |
| ServiceInstall.InstanceStepWarnings | src/docsnaps/management/commands/_install.py:406-422 | the DocumentsLanguages section warns exactly when the stored url or `is_enabled` differs |
| ServiceInstall.TransformStepWarnings | src/docsnaps/management/commands/_install.py:425-432 | the Transform section warns exactly when the module had already registered a transform for the document |
| ServiceInstall.LoadGraphWarnings | src/docsnaps/management/commands/_install.py:370-432 | the warnings of a load, in section order, each about the row stored before the load; the Document section never warns |
| ServiceInstall.FirstLoadIsClean | src/tests/install/test_model_loader.py:39-61 | a first load into an empty store inserts one row per table and warns about nothing |
| ServiceInstall.LoadGraphIdempotent | src/tests/install/test_model_loader.py:63-106 | loading the same graph again changes no table and warns, last, that the Transform was already registered |
| ServiceInstall.SecondLoadWarnsOnlyTransform | src/tests/install/test_model_loader.py:63-106 | after a first load into an empty store, the second load's only warning is the Transform one |
| ServiceInstall.Database.GetOrCreateCompany | src/docsnaps/management/commands/_install.py:372-374 | the Companies table after `get_or_create` by name, and what it returns |
| ServiceInstall.Database.GetOrCreateService | src/docsnaps/management/commands/_install.py:381-384 | the Services table after `get_or_create` by (company, name) |
| ServiceInstall.Database.GetOrCreateDocument | src/docsnaps/management/commands/_install.py:391-393 | the Documents table after `get_or_create` by (service, name) |
| ServiceInstall.Database.GetOrCreateLanguage | src/docsnaps/management/commands/_install.py:397-399 | the Languages table after `get_or_create` by code |
| ServiceInstall.Database.GetOrCreateInstance | src/docsnaps/management/commands/_install.py:406-411 | the DocumentsLanguages table after `get_or_create` by (document, language) |
| ServiceInstall.Database.GetOrCreateTransform | src/docsnaps/management/commands/_install.py:425-427 | the Transforms table after `get_or_create` by (document, module) |
| ServiceInstall.Database.Restore | src/docsnaps/management/commands/_install.py:368 | leaving the atomic block by an error brings back the saved tables |
| ServiceInstall.ModelLoader.constructor | src/docsnaps/management/commands/_install.py:310-315 | when no section fails, the store and warnings are `LoadGraph`'s and `load_successful` holds; otherwise the store is unchanged and `load_successful` is false |
| ServiceInstall.ModelLoader.Load | src/docsnaps/management/commands/_install.py:368-434 | all of the load or none of it: the atomic block either completes with `LoadGraph`'s result or rolls back |
| ServiceInstall.ModelLoader.LoadSections | src/docsnaps/management/commands/_install.py:370-432 | the six sections in order reach `LoadGraph`'s tables and warnings exactly when no section fails |
| ServiceInstall.ModelLoader.LoadCompany | src/docsnaps/management/commands/_install.py:370-377 | the Company section's tables and warning |
| ServiceInstall.ModelLoader.LoadService | src/docsnaps/management/commands/_install.py:379-387 | the Service section's tables and warning |
| ServiceInstall.ModelLoader.LoadDocument | src/docsnaps/management/commands/_install.py:389-393 | the Document section's tables |
| ServiceInstall.ModelLoader.LoadLanguage | src/docsnaps/management/commands/_install.py:395-402 | the Language section's tables and warning |
| ServiceInstall.ModelLoader.LoadInstance | src/docsnaps/management/commands/_install.py:404-422 | the DocumentsLanguages section's tables and warning |
| ServiceInstall.ModelLoader.LoadTransform | src/docsnaps/management/commands/_install.py:424-432 | the Transform section's tables and warning |
| ServiceInstall.NewModelLoader | src/docsnaps/management/commands/_install.py:303-315 | a non-module argument and then a non-DocumentsLanguages argument raise their ValueError before anything is loaded; otherwise the load either succeeds with `LoadGraph`'s result or leaves the store unchanged |
| ServiceInstall.ValidateModels | src/docsnaps/management/commands/_install.py:175-215 | the models pass exactly when the value is a non-empty iterable of complete graphs; non-iterability is reported before emptiness, then the first failing item |
| ServiceInstall.InstanceParents | src/docsnaps/management/commands/_install.py:60-66 | a DocumentsLanguages instance enqueues its document and then its language, each when set |
| ServiceInstall.CompanyGraphFlattening | src/docsnaps/management/commands/_utils.py:52-59 | the company graph flattens level by level: the instance, its document and language, the service, the company, each only when reachable |
| ServiceInstall.CompleteGraphOrder | src/tests/test_utils.py:23-34 | the complete graph flattens to [DocumentsLanguages, Document, Language, Service, Company] |
| ServiceInstall.CompanyGraphMissing | src/docsnaps/management/commands/_install.py:192-208 | a required class is reported missing exactly when it is unset or cut off by an unset relation below it |
| FlatRun.ActiveJobs | src/django_docsnaps/management/commands/_run.py:60-61 | the active jobs are exactly the enabled rows, in table order; a one-row table gives that row when it is enabled and nothing otherwise |
| FlatRun.ActiveJobsAppend | src/django_docsnaps/management/commands/_run.py:60-61 | filtering works piece by piece, so the active jobs keep the table's order and each enabled row is kept as often as it occurs |
| FlatRun.ActiveJobsEmptyIffNoneEnabled | src/django_docsnaps/management/commands/_run.py:60-61 | there is no active job exactly when every row is disabled |
| FlatRun.LatestRowsAmong | src/django_docsnaps/management/commands/_run.py:212-226 | the query keeps exactly the snapshots with no later sibling that belong to an enabled job |
| FlatRun.SnapshotDict | src/django_docsnaps/management/commands/_run.py:245 | the dictionary has one key per job among the rows, and each value is the text of a row of that job |
| FlatRun.GetSnapshots | src/django_docsnaps/management/commands/_run.py:177-246 | every entry belongs to an enabled job and holds the text of one of its snapshots with no later sibling |
| FlatRun.GetSnapshotsAsWritten | src/django_docsnaps/management/commands/_run.py:227-229 | as written: a NameError for `docsnaps` unless that name is bound, and the query's dictionary otherwise |
| FlatRun.GetSnapshotsAsWrittenRaises | src/django_docsnaps/management/commands/_run.py:20-29 | with the names the imports bind, `_get_snapshots` always raises the NameError |
| FlatRun.HandleAsWritten | src/django_docsnaps/management/commands/_run.py:259-270 | as written: with no enabled job the "No active jobs found." report, and with any active job the NameError for `docsnaps` |
| FlatRun.HandleAsWrittenRaises | src/django_docsnaps/management/commands/_run.py:88 | as written, `handle` with any enabled job ends in the NameError |
| FlatRun.GetSnapshotsKeys | src/django_docsnaps/management/commands/_run.py:219-226 | a job has an entry exactly when it is enabled and has a snapshot |
| FlatRun.GetSnapshotsLatest | src/django_docsnaps/management/commands/_run.py:212-226 | the entry of a job is the text of its latest snapshot |
| FlatRun.GetSnapshotsNone | src/django_docsnaps/management/commands/_run.py:245 | no snapshots give an empty dictionary |
| FlatRun.SnapshotFor | src/django_docsnaps/management/commands/_run.py:94 | a missing entry reads as None, and a present one as its value |
| FlatRun.ExecuteJobs | src/django_docsnaps/management/commands/_run.py:88-99 | one task per active job, in order, each with that job's snapshot text |
| FlatRun.Handle | src/django_docsnaps/management/commands/_run.py:259-270 | with no enabled job, nothing runs and "No active jobs found." is reported; otherwise one task per enabled job |
| FlatRun.TaskSnapshotIsLatest | src/django_docsnaps/management/commands/_run.py:92-96 | a task is handed its job's latest snapshot text |
| FlatRun.TaskSnapshotWithoutHistory | src/django_docsnaps/management/commands/_run.py:94 | a job without snapshots is handed None |
| Snapshots.LatestExists | src/django_docsnaps/management/commands/_run.py:219-226 | the anti-join keeps at least one snapshot of every job that has one |
| Snapshots.LatestOf | src/django_docsnaps/management/commands/_run.py:219-226 | a snapshot of the job with no later sibling exists |
| Snapshots.LatestUnique | src/docsnaps/models.py:171-173 | with one snapshot per job and instant, the latest snapshot of a job is unique |
| ServiceRun.LatestTexts | src/docsnaps/management/commands/_run.py:138-145 | the joined snapshot rows never outnumber the snapshots |
| ServiceRun.JobQuery | src/docsnaps/management/commands/_run.py:122-146 | the query returns only enabled instances |
| ServiceRun.AtMostOneLatest | src/docsnaps/management/commands/_run.py:138-145 | with one snapshot per instant, an instance joins at most one snapshot, and one exactly when it has a latest snapshot |
| ServiceRun.InstanceRows | src/docsnaps/management/commands/_run.py:138-145 | an instance's rows all carry that instance; without a snapshot it gives one row with NULL text, otherwise no more rows than snapshots |
| ServiceRun.InstanceRowsSingle | src/docsnaps/management/commands/_run.py:122-145 | assuming at most one snapshot per instance and instant, every enabled instance gives exactly one row, with NULL text when it has no snapshot |
| ServiceRun.LatestTextIsLatest | src/docsnaps/management/commands/_run.py:138-145 | that row's text is the latest snapshot's |
| ServiceRun.JobQueryCoversEnabled | src/docsnaps/management/commands/_run.py:143-146 | every enabled instance appears in the query |
| ServiceRun.TransformerModuleName | src/docsnaps/management/commands/_run.py:67-72 | the module is the transformers package followed by the service name with no space and no upper-case letter, of the same length |
| ServiceRun.TransformerClassName | src/docsnaps/management/commands/_run.py:77 | the class name has no space |
| ServiceRun.LanguageClassName | src/docsnaps/management/commands/_run.py:77-80 | the language-specific class name starts with the document class name and adds one character per character of the language code |
| ServiceRun.FindTransformer | src/docsnaps/management/commands/_run.py:71-86 | no transformer exactly when the module is missing or has neither class; a found transformer is the language-specific class or the document class |
| ServiceRun.TransformDocument | src/docsnaps/management/commands/_run.py:64-95 | without a transformer the text comes back unchanged, and with one it is that transformer's output |
| ServiceRun.NoModuleKeepsText | src/docsnaps/management/commands/_run.py:64-74 | without a transformer module the text is returned unchanged |
| ServiceRun.LanguageTransformerFirst | src/docsnaps/management/commands/_run.py:76-90 | the language-specific transformer is applied, once, whenever it exists |
| ServiceRun.DocumentTransformerFallback | src/docsnaps/management/commands/_run.py:83-95 | otherwise the document's transformer is applied, and without either the text is unchanged |
| ServiceRun.ModuleNameIgnoresCase | src/docsnaps/management/commands/_run.py:67 | service names that differ only in letter case share one transformer module |
| ServiceRun.Heading | src/docsnaps/management/commands/_run.py:149-153 | the heading is the service, the document, "in" and the language, separated by spaces |
| ServiceRun.RequestUrl | src/docsnaps/management/commands/_run.py:157 | the request goes to "https://" followed by the stored url |
| ServiceRun.FailedRequestSkipsTransform | src/docsnaps/management/commands/_run.py:156-165 | a text is transformed exactly when the request succeeds; an HTTP error reports its status and any other failure its exception name |
| ServiceRun.ProcessRow | src/docsnaps/management/commands/_run.py:148-165 | the entry is headed by the instance; its text is transformed exactly when the request returned a non-error status, and is then the transformed response body; an HTTP error reports the response's status |
| ServiceRun.RunJobs | src/docsnaps/management/commands/_run.py:148-165 | the loop processes every row in order, and one failing row does not stop the rest |
| ServiceRun.Handle | src/docsnaps/management/commands/_run.py:122-165 | one entry per row of the job query, in order |
| ColumnTypes.FixedCharDbType | docsnaps/models.py:53-58 | the parent type on SQLite, and on every other engine `char(` + digits + `)` |
| ColumnTypes.FixedCharLengthReadsBack | docsnaps/models.py:57 | the digits between the parentheses read back as `max_length` |
| ColumnTypes.TimestampSpec | docsnaps/models.py:98-111 | the type spec always starts with TIMESTAMP |
| ColumnTypes.TimestampDbType | docsnaps/models.py:97-119 | on MySQL, `auto_now` gives both CURRENT_TIMESTAMP clauses and takes precedence, then `auto_now_add`, then an explicit default, then bare TIMESTAMP; elsewhere the parent type |
| ColumnTypes.DefaultAfterDbType | docsnaps/models.py:112-114 | the default changes only for a non-null MySQL field without flags or default, and then becomes 0 |
| ColumnTypes.MariadbTimestampField.constructor | docsnaps/models.py:133 | the field's flags, default and nullability are those given |
| ColumnTypes.MariadbTimestampField.DbType | docsnaps/models.py:97-119 | the type string built part by part, and the default afterwards |
| ColumnTypes.SecondDbTypeSeesDefault | docsnaps/models.py:109-115 | a non-null field without flags reads TIMESTAMP the first time and TIMESTAMP DEFAULT 0 the second time |
| ColumnTypes.DbTypeStableOtherwise | docsnaps/models.py:97-119 | every other field keeps its default, so its type never changes |
| Routers.DbForRead | docsnaps/routers.py:20-24 | reads go to "docsnaps" exactly for the app's models, and are left to other routers otherwise |
| Routers.DbForWrite | docsnaps/routers.py:26-30 | writes go to "docsnaps" exactly for the app's models, and are left to other routers otherwise |
| Routers.ReadWriteAgree | docsnaps/routers.py:20-30 | reads and writes of a model are routed alike |
| Routers.AllowMigrate | docsnaps/routers.py:32-38 | on "docsnaps" only the app migrates; the app migrates nowhere else; every other pair gives None |
| Routers.MigrateOnlyHome | docsnaps/routers.py:33-37 | a migration is allowed exactly for the app on its own database, the one its writes go to |

## Left out

- HTTP fetching is left out: requests, aiohttp, timeouts and redirects. A request is a parameter mapping the URL to a status and body, or to an exception's name.
- The asyncio event loop and task scheduling are left out. `_execute_jobs` is modelled as the sequential creation of the tasks.
- `_execute_job` is a stub that sleeps and raises. So are `_compare_snapshot` and `_save_document`, and the flat `_transform_document` is a debugger stub. None of them has behaviour to model.
- The company-schema `Command._load_models` only writes a status line, so no loading from the command is modelled for that schema.
- The company-schema `_run.py` functions use `self` without receiving it. They are modelled as the evident methods, on their parameters.
- The Django ORM and SQL execution are left out. Tables are maps keyed by natural key, and query results are sequences in table order; the order of the rows a real database returns is not modelled.
- `transaction.atomic` is modelled as either the new state or the old state.
- Database errors are an oracle parameter: the index of the failing graph or section. The position inside a section is not modelled.
- `MultipleObjectsReturned` cannot happen, because the maps keep every natural key unique.
- `importlib.import_module` is left out. Each plugin module is a value listing its attributes and what `get_models()` returned.
- The transformer packages are a map from module name to class name to text function.
- The root package of the module name is the constant "docsnaps".
- stdout output, styling and `raise_command_error` are left out, as are `handle`'s import step, `add_arguments` and the CLI wiring.
- The admin UI, migrations, settings, apps, setup and the test scaffolding are not part of this model.
- docsnaps/management/commands/_install.py is not part of this model; it holds only an import and a debugger call.
- Text.Lower: `lower()` and `title()` are modelled on ASCII letters only; Unicode case rules are not.
- Language.code_iso_639_1 is limited to 2 characters by the schema. This length limit is not modelled; the uniqueness of the code is, as the key of the Languages table.
- Models without a `__str__` print as Django's default "<Model> object". `str(Document)` and `str(Language)` of the flat schema are not used by the modelled code.
- The company schema's Service model names its column `url`, but the loader reads and writes `website`. The model follows the loader.
- The company schema's Transform is unique on (documents_languages_id, module), but the loader looks it up by (document, module). The model follows the loader.
- Snapshot datetimes are integers. A NULL snapshot text is None.
- The `str()` of a default of 0 is the string "0".
- PluginValidation.MissingList: `', '.join(map(str, diff))` lists the classes of a Python set, whose order is unspecified. The model fixes one order (PluginValidation.ListOrder).
- ServiceInstall.ErrorMessage and FlatInstall.ErrorMessage give the CommandError texts of validation and carry no contract; they are formatting only.
- The flat `ModelLoader._generate_warning` is never called, and src/tests/test_utils.py:36-50 expects a ValueError that `flatten_model_graph` never raises. Neither is modelled.
- FlatRun.ExecuteJobs, FlatRun.Handle, FlatRun.TaskSnapshotIsLatest, FlatRun.TaskSnapshotWithoutHistory: these run with the corrected `_get_snapshots` of the Findings row (FlatRun.GetSnapshots), so they describe tasks that the module as written never creates: there, any enabled job makes the `_get_snapshots` call at src/django_docsnaps/management/commands/_run.py:88 raise NameError before a task exists. The as-written run is FlatRun.HandleAsWritten.
- FlatInstall.LanguageStep, FlatInstall.ModelLoader.LoadLanguage: the loader emits the corrected Language warning of the Findings row, naming the stored and the incoming name; the as-written sentence that names the code twice is modelled only by FlatInstall.LanguageWarningAsWritten. The same holds for LoadGraph, LoadGraphWarnings, LoadGraphIdempotent, ReinstallUpdatesUrl, ModelLoader and LoadModels, which build on LanguageStep.
- ServiceRun.TransformDocument: when the transformer module exists but has neither class, src/docsnaps/management/commands/_run.py:93 calls `self.style.warning`. Django's Style has only upper-case roles, so this raises AttributeError. The model returns the text unchanged instead, as the method's return path intends.
- ServiceRun.InstanceRowsSingle, ServiceRun.AtMostOneLatest, ServiceRun.LatestTextIsLatest: these assume at most one snapshot per instance and instant. Only the flat Snapshot declares that uniqueness (src/docsnaps/models.py:173). The company Snapshot (docsnaps/models.py:245-266) does not, so there two snapshots sharing the latest instant give two rows.
- ServiceInstall.ModelLoader.constructor: `__init__` lets a database error escape after the atomic block has rolled back (src/docsnaps/management/commands/_install.py:315, 368). The constructor models that escape as a normal return with an unchanged store and `load_successful` false. ServiceInstall.NewModelLoader reports the same case as Err.
- FlatInstall.ValidateModels, ServiceInstall.ValidateModels: `get_models()` is called once and its items are read as a sequence. A generator that `iter()` accepts and that is consumed twice is not modelled.

## Findings

| source | as written | input that shows it | evidently intended | confidence | as-written member | corrected member |
|---|---|---|---|---|---|---|
| src/django_docsnaps/management/commands/_run.py:227-229 | the table names are read through `docsnaps.models`, but the module imports only `django_docsnaps.models` (lines 28-29), so the name `docsnaps` is unbound and a NameError is raised; `_execute_jobs` awaits this first (line 88) | any job table with one enabled row: `handle` raises NameError instead of running the jobs | read the table names through `django_docsnaps.models` | not executed | FlatRun.HandleAsWritten | FlatRun.GetSnapshots |
| src/django_docsnaps/management/commands/_install.py:366-370 | the "existing record has name … while the new record had name …" sentence is filled with `language.code_iso_639_1` and `new_language.code_iso_639_1`, which are equal by the lookup | stored Language ("English", "en"), incoming ("Anglais", "en"): the warning says the names were "en" and "en" | fill the sentence with `language.name` and `new_language.name` | not executed | FlatInstall.LanguageWarningAsWritten | FlatInstall.LanguageWarning |
