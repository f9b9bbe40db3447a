/** The `install` command of the company/service schema
    (src/docsnaps/management/commands/_install.py, over the tables of
    docsnaps/models.py): the plugin module's interface and model graphs are
    validated, then `ModelLoader` loads one graph, from the Company down to
    the DocumentsLanguages row, and registers the module's transform for
    the document, inside one transaction.

    The store is a class whose fields are the six tables, each a map from
    the natural key the loader looks a record up by to the record: Company
    by name, Service by (company, name), Document by (service, name),
    Language by ISO 639-1 code, DocumentsLanguages by (document, language),
    Transform by (document, module). */
module ServiceInstall {
  import opened Common
  import opened Text
  import G = ModelGraph
  import V = PluginValidation

  datatype Company = Company(name: string, website: Option<string>)

  datatype Service = Service(name: string, website: string)

  datatype Document = Document(name: string)

  datatype Language = Language(name: string, code: string)

  /** A DocumentsLanguages row: the non-key columns. */
  datatype DocumentInstance = DocumentInstance(url: string, isEnabled: bool)

  datatype TransformRecord = TransformRecord(executionPriority: int)

  datatype ServiceKey = ServiceKey(companyName: string, name: string)

  datatype DocumentKey = DocumentKey(service: ServiceKey, name: string)

  datatype InstanceKey = InstanceKey(document: DocumentKey, languageCode: string)

  datatype TransformKey = TransformKey(document: DocumentKey, moduleName: string)

  /** The graph a plugin returns: a DocumentsLanguages instance, its
      language, and its document with the document's service and the
      service's company. */
  datatype Graph = Graph(company: Company, service: Service, document: Document, language: Language,
                         instance: DocumentInstance)

  function ServiceKeyOf(g: Graph): (k: ServiceKey)
    ensures k.companyName == g.company.name && k.name == g.service.name
  {
    ServiceKey(g.company.name, g.service.name)
  }

  function DocumentKeyOf(g: Graph): (k: DocumentKey)
    ensures k.service == ServiceKeyOf(g) && k.name == g.document.name
  {
    DocumentKey(ServiceKeyOf(g), g.document.name)
  }

  function InstanceKeyOf(g: Graph): (k: InstanceKey)
    ensures k.document == DocumentKeyOf(g) && k.languageCode == g.language.code
  {
    InstanceKey(DocumentKeyOf(g), g.language.code)
  }

  function TransformKeyOf(g: Graph, moduleName: string): (k: TransformKey)
    ensures k.document == DocumentKeyOf(g) && k.moduleName == moduleName
  {
    TransformKey(DocumentKeyOf(g), moduleName)
  }

  datatype Tables = Tables(
    companies: map<string, Company>,
    services: map<ServiceKey, Service>,
    documents: map<DocumentKey, Document>,
    languages: map<string, Language>,
    instances: map<InstanceKey, DocumentInstance>,
    transforms: map<TransformKey, TransformRecord>)

  const EmptyTables := Tables(map[], map[], map[], map[], map[], map[])

  // ---------------------------------------------------------------------
  // Warnings

  /** A field whose value differs: its name and the `str()` of the existing
      and of the discarded value. */
  datatype FieldDiff = FieldDiff(field: string, existing: string, discarded: string)

  function WarningPrefix(existingModel: string): string
  {
    "Existing " + existingModel + " found with different field values. Existing record will not be updated. "
  }

  function ExistingValueText(d: FieldDiff): string
  {
    "Existing \"" + d.field + "\" value: \"" + d.existing + "\"."
  }

  function DiscardedValueText(d: FieldDiff): string
  {
    "Discarded \"" + d.field + "\" value: \"" + d.discarded + "\"."
  }

  function FieldText(d: FieldDiff): string
  {
    ExistingValueText(d) + DiscardedValueText(d)
  }

  /** The sentences for the fields, in order. */
  function FieldsText(diffs: seq<FieldDiff>): string
  {
    if diffs == [] then "" else FieldsText(diffs[..|diffs| - 1]) + FieldText(diffs[|diffs| - 1])
  }

  /** The warning `_generate_warning` returns for an existing model whose
      `str()` is `existingModel`. */
  function WarningText(existingModel: string, diffs: seq<FieldDiff>): (r: string)
    ensures |r| >= |WarningPrefix(existingModel)| && r[..|WarningPrefix(existingModel)|] == WarningPrefix(existingModel)
    ensures diffs == [] ==> r == WarningPrefix(existingModel)
    ensures |diffs| == 1 ==>
              r == WarningPrefix(existingModel) + ExistingValueText(diffs[0]) + DiscardedValueText(diffs[0])
  {
    if |diffs| == 1 then
      var d := diffs[0];
      assert diffs[..0] == [];
      assert FieldsText(diffs) == ExistingValueText(d) + DiscardedValueText(d);
      assert WarningPrefix(existingModel) + (ExistingValueText(d) + DiscardedValueText(d))
             == WarningPrefix(existingModel) + ExistingValueText(d) + DiscardedValueText(d);
      WarningPrefix(existingModel) + FieldsText(diffs)
    else
      WarningPrefix(existingModel) + FieldsText(diffs)
  }

  /** `_generate_warning(existing_model, new_model, field_names)`: the fixed
      prefix, then, field by field, the existing value and then the
      discarded value. */
  method GenerateWarning(existingModel: string, diffs: seq<FieldDiff>) returns (warning: string)
    ensures warning == WarningText(existingModel, diffs)
    ensures |warning| >= |WarningPrefix(existingModel)|
    ensures warning[..|WarningPrefix(existingModel)|] == WarningPrefix(existingModel)
  {
    warning := WarningPrefix(existingModel);
    for i := 0 to |diffs|
      invariant warning == WarningPrefix(existingModel) + FieldsText(diffs[..i])
    {
      ghost var done := FieldsText(diffs[..i]);
      warning := warning + ExistingValueText(diffs[i]);
      warning := warning + DiscardedValueText(diffs[i]);
      AppendAssociative(WarningPrefix(existingModel) + done, ExistingValueText(diffs[i]), DiscardedValueText(diffs[i]));
      AppendAssociative(WarningPrefix(existingModel), done, FieldText(diffs[i]));
      assert diffs[..i + 1][..i] == diffs[..i];
      assert FieldsText(diffs[..i + 1]) == done + FieldText(diffs[i]);
    }
    assert diffs[..|diffs|] == diffs;
  }

  /** `str()` of the models without a `__str__` of their own: Django's
      default. Company, Service and Language print as their name. */
  const DocumentStr := "Document object"
  const InstanceStr := "DocumentsLanguages object"

  function CompanyWarning(existing: Company, incoming: Company): (r: string)
    ensures var d := FieldDiff("website", OptionStr(existing.website), OptionStr(incoming.website));
            r == WarningPrefix(existing.name) + ExistingValueText(d) + DiscardedValueText(d)
  {
    WarningText(existing.name, [FieldDiff("website", OptionStr(existing.website), OptionStr(incoming.website))])
  }

  function ServiceWarning(existing: Service, incoming: Service): (r: string)
    ensures var d := FieldDiff("website", existing.website, incoming.website);
            r == WarningPrefix(existing.name) + ExistingValueText(d) + DiscardedValueText(d)
  {
    WarningText(existing.name, [FieldDiff("website", existing.website, incoming.website)])
  }

  function LanguageWarning(existing: Language, incoming: Language): (r: string)
    ensures var d := FieldDiff("name", existing.name, incoming.name);
            r == WarningPrefix(existing.name) + ExistingValueText(d) + DiscardedValueText(d)
  {
    WarningText(existing.name, [FieldDiff("name", existing.name, incoming.name)])
  }

  /** The `differing_fields` of a DocumentsLanguages row: `url` when the
      urls differ, otherwise `is_enabled` when that differs; never both. */
  function InstanceDiffs(existing: DocumentInstance, incoming: DocumentInstance): (r: seq<FieldDiff>)
    ensures |r| <= 1
    ensures r == [] <==> existing == incoming
    ensures r != [] ==> (r[0].field == "url" <==> existing.url != incoming.url)
  {
    if incoming.url != existing.url then [FieldDiff("url", existing.url, incoming.url)]
    else if incoming.isEnabled != existing.isEnabled then
      [FieldDiff("is_enabled", BoolStr(existing.isEnabled), BoolStr(incoming.isEnabled))]
    else []
  }

  function TransformWarning(moduleName: string): (r: string)
    ensures |r| == |TransformWarningHead| + |moduleName| + |TransformWarningTail|
    ensures r[..|TransformWarningHead|] == TransformWarningHead
    ensures r[|TransformWarningHead|..|TransformWarningHead| + |moduleName|] == moduleName
  {
    "Transform: Module " + moduleName + " already registered transform for " + DocumentStr + "."
  }

  const TransformWarningHead := "Transform: Module "
  const TransformWarningTail := " already registered transform for " + DocumentStr + "."

  // ---------------------------------------------------------------------
  // One graph, section by section

  datatype LoadResult = LoadResult(tables: Tables, warnings: seq<string>)

  /** The Company section: get or create by name; warn when the stored
      website differs from the incoming one. Each section gives the new
      tables and its own warnings. */
  function CompanyStep(t: Tables, g: Graph): (r: LoadResult)
    ensures GrowsBy(t.companies, r.tables.companies, g.company.name, g.company)
    ensures r.tables.(companies := t.companies) == t
    ensures |r.warnings| <= 1
  {
    var f := GetOrCreate(t.companies, g.company.name, g.company);
    LoadResult(t.(companies := f.table),
               if g.company.website != f.record.website then [CompanyWarning(f.record, g.company)] else [])
  }

  /** The Service section: get or create by (company, name). */
  function ServiceStep(t: Tables, g: Graph): (r: LoadResult)
    ensures GrowsBy(t.services, r.tables.services, ServiceKeyOf(g), g.service)
    ensures r.tables.(services := t.services) == t
    ensures |r.warnings| <= 1
  {
    var f := GetOrCreate(t.services, ServiceKeyOf(g), g.service);
    LoadResult(t.(services := f.table),
               if g.service.website != f.record.website then [ServiceWarning(f.record, g.service)] else [])
  }

  /** The Document section: get or create by (service, name); it never
      warns, so it gives only the new tables. */
  function DocumentStep(t: Tables, g: Graph): (r: Tables)
    ensures GrowsBy(t.documents, r.documents, DocumentKeyOf(g), g.document)
    ensures r.(documents := t.documents) == t
  {
    t.(documents := GetOrCreate(t.documents, DocumentKeyOf(g), g.document).table)
  }

  /** The Language section: get or create by code; warn when the stored
      name differs. */
  function LanguageStep(t: Tables, g: Graph): (r: LoadResult)
    ensures GrowsBy(t.languages, r.tables.languages, g.language.code, g.language)
    ensures r.tables.(languages := t.languages) == t
    ensures |r.warnings| <= 1
  {
    var f := GetOrCreate(t.languages, g.language.code, g.language);
    LoadResult(t.(languages := f.table),
               if g.language.name != f.record.name then [LanguageWarning(f.record, g.language)] else [])
  }

  /** The DocumentsLanguages section: get or create by (document,
      language); warn about the first differing field. */
  function InstanceStep(t: Tables, g: Graph): (r: LoadResult)
    ensures GrowsBy(t.instances, r.tables.instances, InstanceKeyOf(g), g.instance)
    ensures r.tables.(instances := t.instances) == t
    ensures |r.warnings| <= 1
  {
    var f := GetOrCreate(t.instances, InstanceKeyOf(g), g.instance);
    var diffs := InstanceDiffs(f.record, g.instance);
    LoadResult(t.(instances := f.table), if diffs != [] then [WarningText(InstanceStr, diffs)] else [])
  }

  /** The Transform section: get or create by (document, module); warn when
      the module had already registered a transform for the document. */
  function TransformStep(t: Tables, g: Graph, moduleName: string): (r: LoadResult)
    ensures GrowsBy(t.transforms, r.tables.transforms, TransformKeyOf(g, moduleName), TransformRecord(0))
    ensures r.tables.(transforms := t.transforms) == t
    ensures |r.warnings| <= 1
  {
    var f := GetOrCreate(t.transforms, TransformKeyOf(g, moduleName), TransformRecord(0));
    LoadResult(t.(transforms := f.table), if !f.created then [TransformWarning(moduleName)] else [])
  }

  /** `ModelLoader._load` as a value: the six sections in order, their
      warnings appended in order. */
  function LoadGraph(t: Tables, g: Graph, moduleName: string): (r: LoadResult)
    ensures g.company.name in r.tables.companies && ServiceKeyOf(g) in r.tables.services
    ensures DocumentKeyOf(g) in r.tables.documents && g.language.code in r.tables.languages
    ensures InstanceKeyOf(g) in r.tables.instances && TransformKeyOf(g, moduleName) in r.tables.transforms
    ensures |r.warnings| <= 5
  {
    var company := CompanyStep(t, g);
    var service := ServiceStep(company.tables, g);
    var document := DocumentStep(service.tables, g);
    var language := LanguageStep(document, g);
    var instance := InstanceStep(language.tables, g);
    var transform := TransformStep(instance.tables, g, moduleName);
    LoadResult(transform.tables,
               company.warnings + service.warnings + language.warnings + instance.warnings + transform.warnings)
  }

  /** A load only adds rows: each table gains at most the graph's key, an
      existing row is never modified, and a new row holds the incoming
      values (a new Transform has execution priority 0). */
  lemma LoadGraphTables(t: Tables, g: Graph, moduleName: string)
    ensures var r := LoadGraph(t, g, moduleName).tables;
            GrowsBy(t.companies, r.companies, g.company.name, g.company)
            && GrowsBy(t.services, r.services, ServiceKeyOf(g), g.service)
            && GrowsBy(t.documents, r.documents, DocumentKeyOf(g), g.document)
            && GrowsBy(t.languages, r.languages, g.language.code, g.language)
            && GrowsBy(t.instances, r.instances, InstanceKeyOf(g), g.instance)
            && GrowsBy(t.transforms, r.transforms, TransformKeyOf(g, moduleName), TransformRecord(0))
  {
    var c := CompanyStep(t, g);
    var s := ServiceStep(c.tables, g);
    var d := DocumentStep(s.tables, g);
    var l := LanguageStep(d, g);
    var n := InstanceStep(l.tables, g);
    var r := TransformStep(n.tables, g, moduleName).tables;
    assert r.companies == c.tables.companies && GrowsBy(t.companies, r.companies, g.company.name, g.company);
    assert r.services == s.tables.services && GrowsBy(t.services, r.services, ServiceKeyOf(g), g.service);
    assert r.documents == d.documents && GrowsBy(t.documents, r.documents, DocumentKeyOf(g), g.document);
    assert r.languages == l.tables.languages && GrowsBy(t.languages, r.languages, g.language.code, g.language);
    assert r.instances == n.tables.instances && GrowsBy(t.instances, r.instances, InstanceKeyOf(g), g.instance);
  }

  /** The warning of each section, in terms of the row stored before the
      load: the Company, Service and Language sections warn exactly when a
      stored row's website or name differs from the incoming one, the
      DocumentsLanguages section when its url or `is_enabled` differs, the
      Transform section when the module had already registered it. */
  function CompanyWarnings(companies: map<string, Company>, g: Graph): seq<string>
  {
    if g.company.name in companies && companies[g.company.name].website != g.company.website
    then [CompanyWarning(companies[g.company.name], g.company)] else []
  }

  function ServiceWarnings(services: map<ServiceKey, Service>, g: Graph): seq<string>
  {
    if ServiceKeyOf(g) in services && services[ServiceKeyOf(g)].website != g.service.website
    then [ServiceWarning(services[ServiceKeyOf(g)], g.service)] else []
  }

  function LanguageWarnings(languages: map<string, Language>, g: Graph): seq<string>
  {
    if g.language.code in languages && languages[g.language.code].name != g.language.name
    then [LanguageWarning(languages[g.language.code], g.language)] else []
  }

  function InstanceWarnings(instances: map<InstanceKey, DocumentInstance>, g: Graph): seq<string>
  {
    if InstanceKeyOf(g) in instances && instances[InstanceKeyOf(g)] != g.instance
    then [WarningText(InstanceStr, InstanceDiffs(instances[InstanceKeyOf(g)], g.instance))] else []
  }

  function TransformWarnings(transforms: map<TransformKey, TransformRecord>, g: Graph, moduleName: string)
    : seq<string>
  {
    if TransformKeyOf(g, moduleName) in transforms then [TransformWarning(moduleName)] else []
  }

  /** Each section's warning, about the record `get_or_create` returned,
      is the warning about the row stored before the section ran. */
  lemma CompanyStepWarnings(t: Tables, g: Graph)
    ensures CompanyStep(t, g).warnings == CompanyWarnings(t.companies, g)
  {
  }
  lemma ServiceStepWarnings(t: Tables, g: Graph)
    ensures ServiceStep(t, g).warnings == ServiceWarnings(t.services, g)
  {
  }
  lemma LanguageStepWarnings(t: Tables, g: Graph)
    ensures LanguageStep(t, g).warnings == LanguageWarnings(t.languages, g)
  {
  }
  lemma InstanceStepWarnings(t: Tables, g: Graph)
    ensures InstanceStep(t, g).warnings == InstanceWarnings(t.instances, g)
  {
  }
  lemma TransformStepWarnings(t: Tables, g: Graph, moduleName: string)
    ensures TransformStep(t, g, moduleName).warnings == TransformWarnings(t.transforms, g, moduleName)
  {
  }

  /** The warnings of one load, in section order, each about the row stored
      before the load: Company, Service, Language, DocumentsLanguages and
      Transform, and never one for the Document. */
  lemma LoadGraphWarnings(t: Tables, g: Graph, moduleName: string)
    ensures LoadGraph(t, g, moduleName).warnings ==
              CompanyWarnings(t.companies, g) + ServiceWarnings(t.services, g) + LanguageWarnings(t.languages, g)
              + InstanceWarnings(t.instances, g) + TransformWarnings(t.transforms, g, moduleName)
  {
    var c := CompanyStep(t, g);
    var s := ServiceStep(c.tables, g);
    var d := DocumentStep(s.tables, g);
    var l := LanguageStep(d, g);
    var n := InstanceStep(l.tables, g);
    CompanyStepWarnings(t, g);
    ServiceStepWarnings(c.tables, g);
    LanguageStepWarnings(d, g);
    InstanceStepWarnings(l.tables, g);
    TransformStepWarnings(n.tables, g, moduleName);
    assert c.tables.services == t.services;
    assert d.languages == t.languages;
    assert l.tables.instances == t.instances;
    assert n.tables.transforms == t.transforms;
  }

  /** A first load into an empty store inserts one row per table and warns
      about nothing. */
  lemma FirstLoadIsClean(g: Graph, moduleName: string)
    ensures var r := LoadGraph(EmptyTables, g, moduleName);
            r.warnings == []
            && r.tables.companies == map[g.company.name := g.company]
            && r.tables.services == map[ServiceKeyOf(g) := g.service]
            && r.tables.documents == map[DocumentKeyOf(g) := g.document]
            && r.tables.languages == map[g.language.code := g.language]
            && r.tables.instances == map[InstanceKeyOf(g) := g.instance]
            && r.tables.transforms == map[TransformKeyOf(g, moduleName) := TransformRecord(0)]
  {
    LoadGraphWarnings(EmptyTables, g, moduleName);
    LoadGraphTables(EmptyTables, g, moduleName);
    var r := LoadGraph(EmptyTables, g, moduleName).tables;
    assert r.companies == map[g.company.name := g.company];
    assert r.services == map[ServiceKeyOf(g) := g.service];
    assert r.documents == map[DocumentKeyOf(g) := g.document];
    assert r.languages == map[g.language.code := g.language];
    assert r.instances == map[InstanceKeyOf(g) := g.instance];
  }

  /** Loading the same graph again changes no table, so there is still one
      DocumentsLanguages row and one Transform row for it, and warns that
      the Transform was already registered, after any warning about stored
      values that differ from the graph's. */
  lemma LoadGraphIdempotent(t: Tables, g: Graph, moduleName: string)
    ensures var once := LoadGraph(t, g, moduleName);
            var twice := LoadGraph(once.tables, g, moduleName);
            twice.tables == once.tables
            && |twice.warnings| >= 1 && twice.warnings[|twice.warnings| - 1] == TransformWarning(moduleName)
  {
    var once := LoadGraph(t, g, moduleName);
    LoadGraphTables(t, g, moduleName);
    LoadGraphTables(once.tables, g, moduleName);
    LoadGraphWarnings(once.tables, g, moduleName);
    var twice := LoadGraph(once.tables, g, moduleName);
    assert twice.tables.companies == once.tables.companies;
    assert twice.tables.services == once.tables.services;
    assert twice.tables.documents == once.tables.documents;
    assert twice.tables.languages == once.tables.languages;
    assert twice.tables.instances == once.tables.instances;
    assert twice.tables.transforms == once.tables.transforms;
  }

  /** Installing the same graph twice into an empty store: the second load
      warns only about the Transform. */
  lemma SecondLoadWarnsOnlyTransform(g: Graph, moduleName: string)
    ensures var once := LoadGraph(EmptyTables, g, moduleName);
            LoadGraph(once.tables, g, moduleName).warnings == [TransformWarning(moduleName)]
  {
    var once := LoadGraph(EmptyTables, g, moduleName);
    FirstLoadIsClean(g, moduleName);
    LoadGraphWarnings(once.tables, g, moduleName);
  }

  // ---------------------------------------------------------------------
  // The store and the loader

  class Database {
    var companies: map<string, Company>
    var services: map<ServiceKey, Service>
    var documents: map<DocumentKey, Document>
    var languages: map<string, Language>
    var instances: map<InstanceKey, DocumentInstance>
    var transforms: map<TransformKey, TransformRecord>

    function Contents(): (t: Tables)
      reads this
      ensures t.companies == companies && t.services == services && t.documents == documents
      ensures t.languages == languages && t.instances == instances && t.transforms == transforms
    {
      Tables(companies, services, documents, languages, instances, transforms)
    }

    constructor(initial: Tables)
      ensures Contents() == initial
    {
      companies, services, documents := initial.companies, initial.services, initial.documents;
      languages, instances, transforms := initial.languages, initial.instances, initial.transforms;
    }

    /** `Company.objects.get_or_create(name=..., defaults={'website': ...})`. */
    method GetOrCreateCompany(incoming: Company) returns (record: Company, created: bool)
      modifies this`companies
      ensures var f := GetOrCreate(old(companies), incoming.name, incoming);
              record == f.record && created == f.created && companies == f.table
    {
      if incoming.name in companies {
        record, created := companies[incoming.name], false;
      } else {
        companies := companies[incoming.name := incoming];
        record, created := incoming, true;
      }
    }

    /** `Service.objects.get_or_create(name=..., company_id=..., defaults={'website': ...})`. */
    method GetOrCreateService(key: ServiceKey, incoming: Service) returns (record: Service, created: bool)
      modifies this`services
      ensures var f := GetOrCreate(old(services), key, incoming);
              record == f.record && created == f.created && services == f.table
    {
      if key in services {
        record, created := services[key], false;
      } else {
        services := services[key := incoming];
        record, created := incoming, true;
      }
    }

    /** `Document.objects.get_or_create(name=..., service_id=...)`. */
    method GetOrCreateDocument(key: DocumentKey, incoming: Document) returns (record: Document, created: bool)
      modifies this`documents
      ensures var f := GetOrCreate(old(documents), key, incoming);
              record == f.record && created == f.created && documents == f.table
    {
      if key in documents {
        record, created := documents[key], false;
      } else {
        documents := documents[key := incoming];
        record, created := incoming, true;
      }
    }

    /** `Language.objects.get_or_create(code_iso_639_1=..., defaults={'name': ...})`. */
    method GetOrCreateLanguage(incoming: Language) returns (record: Language, created: bool)
      modifies this`languages
      ensures var f := GetOrCreate(old(languages), incoming.code, incoming);
              record == f.record && created == f.created && languages == f.table
    {
      if incoming.code in languages {
        record, created := languages[incoming.code], false;
      } else {
        languages := languages[incoming.code := incoming];
        record, created := incoming, true;
      }
    }

    /** `DocumentsLanguages.objects.get_or_create(document_id=..., language_id=..., defaults=...)`. */
    method GetOrCreateInstance(key: InstanceKey, incoming: DocumentInstance)
      returns (record: DocumentInstance, created: bool)
      modifies this`instances
      ensures var f := GetOrCreate(old(instances), key, incoming);
              record == f.record && created == f.created && instances == f.table
    {
      if key in instances {
        record, created := instances[key], false;
      } else {
        instances := instances[key := incoming];
        record, created := incoming, true;
      }
    }

    /** `Transform.objects.get_or_create(document_id=..., module=...)`; a new
        row takes the column default execution priority 0. */
    method GetOrCreateTransform(key: TransformKey) returns (record: TransformRecord, created: bool)
      modifies this`transforms
      ensures var f := GetOrCreate(old(transforms), key, TransformRecord(0));
              record == f.record && created == f.created && transforms == f.table
    {
      if key in transforms {
        record, created := transforms[key], false;
      } else {
        transforms := transforms[key := TransformRecord(0)];
        record, created := TransformRecord(0), true;
      }
    }

    /** The rollback of the enclosing transaction. */
    method Restore(saved: Tables)
      modifies this
      ensures Contents() == saved
    {
      companies, services, documents := saved.companies, saved.services, saved.documents;
      languages, instances, transforms := saved.languages, saved.instances, saved.transforms;
    }
  }

  /** `ModelLoader(module, model)`: loads one graph on construction. */
  class ModelLoader {
    const moduleName: string
    const model: Graph
    var loadSuccessful: bool
    var warnings: seq<string>

    /** The attributes are set, then `_load` runs. A database error inside
        section `failure` (0 for Company … 5 for Transform) rolls the whole
        transaction back and leaves `loadSuccessful` false. */
    constructor(db: Database, moduleName: string, model: Graph, failure: Option<nat>)
      modifies db
      ensures this.moduleName == moduleName && this.model == model
      ensures Completes(failure) ==>
                db.Contents() == LoadGraph(old(db.Contents()), model, moduleName).tables
                && warnings == LoadGraph(old(db.Contents()), model, moduleName).warnings
                && loadSuccessful
      ensures !Completes(failure) ==> db.Contents() == old(db.Contents()) && !loadSuccessful
    {
      this.moduleName := moduleName;
      this.model := model;
      loadSuccessful := false;
      warnings := [];
      new;
      Load(db, failure);
    }

    /** `_load`: the six sections inside one atomic block; `load_successful`
        is set only once every section has completed. */
    method Load(db: Database, failure: Option<nat>)
      modifies db, this`warnings, this`loadSuccessful
      requires warnings == [] && !loadSuccessful
      ensures Completes(failure) ==>
                db.Contents() == LoadGraph(old(db.Contents()), model, moduleName).tables
                && warnings == LoadGraph(old(db.Contents()), model, moduleName).warnings
                && loadSuccessful
      ensures !Completes(failure) ==> db.Contents() == old(db.Contents()) && !loadSuccessful
    {
      var saved := db.Contents();
      var completed := LoadSections(db, failure);
      if !completed {
        db.Restore(saved);
        return;
      }
      loadSuccessful := true;
    }

    /** The body of the atomic block: the six sections in order, stopping
        at the section whose query raises a database error. */
    method LoadSections(db: Database, failure: Option<nat>) returns (completed: bool)
      modifies db, this`warnings
      requires warnings == []
      ensures completed == Completes(failure)
      ensures completed ==>
                db.Contents() == LoadGraph(old(db.Contents()), model, moduleName).tables
                && warnings == LoadGraph(old(db.Contents()), model, moduleName).warnings
    {
      var failsAt := if failure.Some? then failure.value else 6;
      ghost var company := CompanyStep(db.Contents(), model);
      LoadCompany(db);
      assert warnings == company.warnings;
      if failsAt == 0 { return false; }
      ghost var service := ServiceStep(company.tables, model);
      LoadService(db);
      assert db.Contents() == service.tables;
      if failsAt == 1 { return false; }
      ghost var document := DocumentStep(service.tables, model);
      LoadDocument(db);
      assert db.Contents() == document;
      if failsAt == 2 { return false; }
      ghost var language := LanguageStep(document, model);
      LoadLanguage(db);
      assert db.Contents() == language.tables;
      assert warnings == company.warnings + service.warnings + language.warnings;
      if failsAt == 3 { return false; }
      ghost var instance := InstanceStep(language.tables, model);
      LoadInstance(db);
      assert db.Contents() == instance.tables;
      if failsAt == 4 { return false; }
      ghost var transform := TransformStep(instance.tables, model, moduleName);
      LoadTransform(db);
      if failsAt == 5 { return false; }
      assert db.Contents() == transform.tables;
      assert warnings == company.warnings + service.warnings + language.warnings + instance.warnings
                         + transform.warnings;
      return true;
    }

    /** The Company section of `_load`. */
    method LoadCompany(db: Database)
      modifies db`companies, this`warnings
      ensures var s := CompanyStep(old(db.Contents()), model);
              db.Contents() == s.tables && warnings == old(warnings) + s.warnings
    {
      var company, created := db.GetOrCreateCompany(model.company);
      if model.company.website != company.website {
        var warning := GenerateWarning(company.name, [FieldDiff("website", OptionStr(company.website), OptionStr(model.company.website))]);
        warnings := warnings + [warning];
      }
    }

    /** The Service section of `_load`. */
    method LoadService(db: Database)
      modifies db`services, this`warnings
      ensures var s := ServiceStep(old(db.Contents()), model);
              db.Contents() == s.tables && warnings == old(warnings) + s.warnings
    {
      var service, created := db.GetOrCreateService(ServiceKeyOf(model), model.service);
      if model.service.website != service.website {
        var warning := GenerateWarning(service.name, [FieldDiff("website", service.website, model.service.website)]);
        warnings := warnings + [warning];
      }
    }

    /** The Document section of `_load`. */
    method LoadDocument(db: Database)
      modifies db`documents
      ensures db.Contents() == DocumentStep(old(db.Contents()), model)
    {
      var document, created := db.GetOrCreateDocument(DocumentKeyOf(model), model.document);
    }

    /** The Language section of `_load`. */
    method LoadLanguage(db: Database)
      modifies db`languages, this`warnings
      ensures var s := LanguageStep(old(db.Contents()), model);
              db.Contents() == s.tables && warnings == old(warnings) + s.warnings
    {
      var language, created := db.GetOrCreateLanguage(model.language);
      if model.language.name != language.name {
        var warning := GenerateWarning(language.name, [FieldDiff("name", language.name, model.language.name)]);
        warnings := warnings + [warning];
      }
    }

    /** The DocumentsLanguages section of `_load`. */
    method LoadInstance(db: Database)
      modifies db`instances, this`warnings
      ensures var s := InstanceStep(old(db.Contents()), model);
              db.Contents() == s.tables && warnings == old(warnings) + s.warnings
    {
      var instance, created := db.GetOrCreateInstance(InstanceKeyOf(model), model.instance);
      var differingFields := [];
      if model.instance.url != instance.url {
        differingFields := differingFields + [FieldDiff("url", instance.url, model.instance.url)];
      } else if model.instance.isEnabled != instance.isEnabled {
        differingFields := differingFields
          + [FieldDiff("is_enabled", BoolStr(instance.isEnabled), BoolStr(model.instance.isEnabled))];
      }
      assert differingFields == InstanceDiffs(instance, model.instance);
      if differingFields != [] {
        var warning := GenerateWarning(InstanceStr, differingFields);
        warnings := warnings + [warning];
      }
    }

    /** The Transform section of `_load`. */
    method LoadTransform(db: Database)
      modifies db`transforms, this`warnings
      ensures var s := TransformStep(old(db.Contents()), model, moduleName);
              db.Contents() == s.tables && warnings == old(warnings) + s.warnings
    {
      var transform, created := db.GetOrCreateTransform(TransformKeyOf(model, moduleName));
      if !created {
        warnings := warnings + [TransformWarning(moduleName)];
      }
    }
  }

  /** No database error, or one in a section that does not exist. */
  predicate Completes(failure: Option<nat>)
  {
    failure.None? || failure.value > 5
  }

  const NotModuleMessage := "Passed module must be ModuleType instance."
  const NotInstanceMessage := "Passed model must be DocumentsLanguages instance."

  /** What `ModelLoader(module, model)` ends in: the ValueError of an
      argument of the wrong type, the database error that rolled the load
      back, or a loader whose load succeeded. `pluginModule` is the
      module's `__name__`, None when the argument is not a module; `model` is None
      when the argument is not a DocumentsLanguages instance. */
  method NewModelLoader(db: Database, pluginModule: Option<string>, model: Option<Graph>, failure: Option<nat>,
                        errorMessage: string)
    returns (r: Result<ModelLoader, string>)
    modifies db
    ensures pluginModule.None? ==> r == Err(NotModuleMessage) && db.Contents() == old(db.Contents())
    ensures pluginModule.Some? && model.None? ==> r == Err(NotInstanceMessage) && db.Contents() == old(db.Contents())
    ensures pluginModule.Some? && model.Some? && !Completes(failure) ==>
              r == Err(errorMessage) && db.Contents() == old(db.Contents())
    ensures pluginModule.Some? && model.Some? && Completes(failure) ==>
              r.Ok? && r.value.loadSuccessful && r.value.moduleName == pluginModule.value
              && db.Contents() == LoadGraph(old(db.Contents()), model.value, pluginModule.value).tables
              && r.value.warnings == LoadGraph(old(db.Contents()), model.value, pluginModule.value).warnings
  {
    if pluginModule.None? {
      return Err(NotModuleMessage);
    }
    if model.None? {
      return Err(NotInstanceMessage);
    }
    var loader := new ModelLoader(db, pluginModule.value, model.value, failure);
    if !loader.loadSuccessful {
      return Err(errorMessage);
    }
    return Ok(loader);
  }
  // ---------------------------------------------------------------------
  // Validation of the plugin module

  /** The model classes every graph of the company schema must reach. */
  const RequiredClasses: set<G.ModelClass> :=
    {G.Company, G.Service, G.Document, G.Language, G.DocumentsLanguages}

  /** `_validate_module_models` of the company schema: a value `iter()`
      rejects is reported first, then a false (empty) value, then the first
      item that is not a DocumentsLanguages or whose graph lacks a required
      class. */
  function ValidateModels(m: V.PluginModule): (r: Result<(), V.ValidationError>)
    ensures r.Ok? <==> m.models.Iterable? && m.models.truthy
                       && forall i :: 0 <= i < |m.models.items| ==>
                            m.models.items[i].kind == G.DocumentsLanguages
                            && V.MissingClasses(RequiredClasses, m.models.items[i]) == {}
    ensures m.models.NotIterable? ==> r == Err(V.NotIterableValue(m.models.typeName))
    ensures m.models.Iterable? && !m.models.truthy ==> r == Err(V.EmptyIterable)
    ensures m.models.Iterable? && m.models.truthy && r.Err? ==>
              exists i :: 0 <= i < |m.models.items| && V.ItemError(RequiredClasses, m.models.items[i]) == Some(r.error)
                          && forall j :: 0 <= j < i ==> V.ItemError(RequiredClasses, m.models.items[j]).None?
  {
    if m.models.NotIterable? then Err(V.NotIterableValue(m.models.typeName))
    else if !m.models.truthy then Err(V.EmptyIterable)
    else V.CheckItems(RequiredClasses, m.models.items)
  }

  const ModelsModule := "docsnaps.models"

  /** The text of the CommandError each failure raises, for the module
      named `moduleName`. A DocumentsLanguages instance has no `__str__` of
      its own and prints as Django's default "DocumentsLanguages object". */
  function ErrorMessage(moduleName: string, e: V.ValidationError): string
  {
    match e
    case NoAttribute(a) => "No attribute \"" + a + "\" in " + moduleName + "."
    case NotCallable(a) => a + " is not callable in " + moduleName + "."
    case EmptyIterable => moduleName + ".get_models() returned an empty iterable."
    case NotIterableValue(t) => "'" + t + "' object is not iterable"
    case IncorrectType(k) =>
      moduleName + ".get_models() returned incorrect type \"" + V.TypeString(ModelsModule, k) + "\" in iterable."
    case MissingModels(missing) =>
      moduleName + ".get_models() returned instance " + InstanceStr + ", the model relationships under which "
      + "are missing at least one instance of the following models: " + V.MissingList(ModelsModule, missing)
  }

  // ---------------------------------------------------------------------
  // The graph a plugin returns, as the walk sees it

  function CompanyNode(): G.ModelNode
  {
    G.ModelNode(G.Company, [G.Other("company_id"), G.Other("name"), G.Other("website"), G.Other("updated_timestamp")])
  }

  function ServiceNode(withCompany: bool): G.ModelNode
  {
    G.ModelNode(G.Service, [
      G.Other("service_id"),
      G.ForeignKey("company_id", if withCompany then Some(CompanyNode()) else None),
      G.Other("name"), G.Other("url"), G.Other("updated_timestamp")])
  }

  function DocumentNode(withService: bool, withCompany: bool): G.ModelNode
  {
    G.ModelNode(G.Document, [
      G.Other("document_id"),
      G.ForeignKey("service_id", if withService then Some(ServiceNode(withCompany)) else None),
      G.Other("name"), G.Other("updated_timestamp"), G.Other("languages")])
  }

  function LanguageNode(): G.ModelNode
  {
    G.ModelNode(G.Language, [G.Other("language_id"), G.Other("name"), G.Other("code_iso_639_1"), G.Other("documents")])
  }

  /** Which relations of a plugin's graph are set: the instance's document
      and language, the document's service and the service's company. */
  datatype Parts = Parts(document: bool, language: bool, service: bool, company: bool)

  const AllParts := Parts(true, true, true, true)

  function InstanceNode(p: Parts): G.ModelNode
  {
    G.ModelNode(G.DocumentsLanguages, [
      G.Other("documents_languages_id"),
      G.ForeignKey("document_id", if p.document then Some(DocumentNode(p.service, p.company)) else None),
      G.ForeignKey("language_id", if p.language then Some(LanguageNode()) else None),
      G.Other("url"), G.Other("is_enabled"), G.Other("updated_timestamp")])
  }

  /** The instances the walk reaches at each depth below the
      DocumentsLanguages instance. */
  function DocumentLevel(p: Parts): seq<G.ModelNode>
  {
    (if p.document then [DocumentNode(p.service, p.company)] else []) + (if p.language then [LanguageNode()] else [])
  }

  function ServiceLevel(p: Parts): seq<G.ModelNode>
  {
    if p.document && p.service then [ServiceNode(p.company)] else []
  }

  function CompanyLevel(p: Parts): seq<G.ModelNode>
  {
    if p.document && p.service && p.company then [CompanyNode()] else []
  }

  lemma InstanceParents(p: Parts)
    ensures G.ParentsOf(InstanceNode(p).fields) == DocumentLevel(p)
  {
    G.ParentsOfTwoForeignKeys(InstanceNode(p).fields, 1, 2);
  }

  /** One level deeper: the document enqueues its service, the service its
      company; the language and the company enqueue nothing. */
  lemma DocumentLevelChildren(p: Parts)
    ensures G.Children(DocumentLevel(p)) == ServiceLevel(p)
  {
    var document := DocumentNode(p.service, p.company);
    var language := LanguageNode();
    var services := if p.service then [ServiceNode(p.company)] else [];
    assert G.ParentsOf(document.fields) == services by {
      G.ParentsOfOneForeignKey(document.fields, 1);
    }
    assert G.ParentsOf(language.fields) == [] by {
      G.ParentsOfColumns(language.fields);
    }
    if p.document && p.language {
      assert DocumentLevel(p) == [document, language];
      G.ChildrenOfTwo(document, language);
    } else if p.document {
      assert DocumentLevel(p) == [document];
      G.ChildrenOfOne(document);
    } else if p.language {
      assert DocumentLevel(p) == [language];
      G.ChildrenOfOne(language);
    }
  }

  lemma ServiceLevelChildren(p: Parts)
    ensures G.Children(ServiceLevel(p)) == CompanyLevel(p)
  {
    if p.document && p.service {
      var service := ServiceNode(p.company);
      G.ParentsOfOneForeignKey(service.fields, 1);
      G.ChildrenOfOne(service);
    }
  }

  lemma CompanyLevelChildren(p: Parts)
    ensures G.Children(CompanyLevel(p)) == []
  {
    if p.document && p.service && p.company {
      G.ParentsOfColumns(CompanyNode().fields);
      G.ChildrenOfOne(CompanyNode());
    }
  }

  /** The company graph flattens level by level: the DocumentsLanguages
      instance, its document, its language, the document's service and the
      service's company, each when the relation leading to it is set. */
  lemma CompanyGraphFlattening(p: Parts)
    ensures G.Bfs([InstanceNode(p)]) == [InstanceNode(p)] + DocumentLevel(p) + ServiceLevel(p) + CompanyLevel(p)
  {
    var root := InstanceNode(p);
    var documents, services, companies := DocumentLevel(p), ServiceLevel(p), CompanyLevel(p);
    RootLevelBfs(p);
    DocumentLevelBfs(p);
    AppendAssociative([root], documents, services + companies);
    AppendAssociative([root] + documents, services, companies);
  }

  lemma RootLevelBfs(p: Parts)
    ensures G.Bfs([InstanceNode(p)]) == [InstanceNode(p)] + G.Bfs(DocumentLevel(p))
  {
    InstanceParents(p);
    G.ChildrenOfOne(InstanceNode(p));
    G.BfsLevels([InstanceNode(p)]);
  }

  lemma CompanyLevelBfs(p: Parts)
    ensures G.Bfs(CompanyLevel(p)) == CompanyLevel(p)
  {
    CompanyLevelChildren(p);
    G.BfsLevels(CompanyLevel(p));
    assert G.Bfs([]) == [];
  }

  lemma ServiceLevelBfs(p: Parts)
    ensures G.Bfs(ServiceLevel(p)) == ServiceLevel(p) + CompanyLevel(p)
  {
    ServiceLevelChildren(p);
    G.BfsLevels(ServiceLevel(p));
    CompanyLevelBfs(p);
  }

  lemma DocumentLevelBfs(p: Parts)
    ensures G.Bfs(DocumentLevel(p)) == DocumentLevel(p) + (ServiceLevel(p) + CompanyLevel(p))
  {
    DocumentLevelChildren(p);
    G.BfsLevels(DocumentLevel(p));
    ServiceLevelBfs(p);
  }

  /** The complete graph flattens to DocumentsLanguages, Document,
      Language, Service, Company, in that order. */
  lemma CompleteGraphOrder()
    ensures G.Kinds(G.Bfs([InstanceNode(AllParts)]))
            == [G.DocumentsLanguages, G.Document, G.Language, G.Service, G.Company]
  {
    CompanyGraphFlattening(AllParts);
  }

  /** Validation of the company graph names exactly the classes the walk
      cannot reach: an unset relation hides its instance and everything
      above it. The complete graph passes. */
  lemma CompanyGraphMissing(p: Parts)
    ensures var missing := V.MissingClasses(RequiredClasses, InstanceNode(p));
            missing <= {G.Company, G.Service, G.Document, G.Language}
            && (G.Document in missing <==> !p.document)
            && (G.Language in missing <==> !p.language)
            && (G.Service in missing <==> !(p.document && p.service))
            && (G.Company in missing <==> !(p.document && p.service && p.company))
  {
    var root := InstanceNode(p);
    var reached := {G.DocumentsLanguages}
                   + (if p.document then {G.Document} else {}) + (if p.language then {G.Language} else {})
                   + (if p.document && p.service then {G.Service} else {})
                   + (if p.document && p.service && p.company then {G.Company} else {});
    assert G.Classes(G.Bfs([root])) == reached by {
      CompanyGraphFlattening(p);
      ReachedClasses(p);
    }
    assert G.Document in reached <==> p.document;
    assert G.Language in reached <==> p.language;
    assert G.Service in reached <==> p.document && p.service;
    assert G.Company in reached <==> p.document && p.service && p.company;
    assert G.DocumentsLanguages in reached;
    assert V.MissingClasses(RequiredClasses, root) == RequiredClasses - reached;
  }

  /** The classes the walk over the company graph reaches. */
  lemma ReachedClasses(p: Parts)
    ensures G.Classes([InstanceNode(p)] + DocumentLevel(p) + ServiceLevel(p) + CompanyLevel(p))
            == {G.DocumentsLanguages}
               + (if p.document then {G.Document} else {}) + (if p.language then {G.Language} else {})
               + (if p.document && p.service then {G.Service} else {})
               + (if p.document && p.service && p.company then {G.Company} else {})
  {
    var root := InstanceNode(p);
    var documents, services, companies := DocumentLevel(p), ServiceLevel(p), CompanyLevel(p);
    var onlyDocument := if p.document then [DocumentNode(p.service, p.company)] else [];
    var onlyLanguage := if p.language then [LanguageNode()] else [];
    var withDocument := if p.document then {G.Document} else {};
    var withLanguage := if p.language then {G.Language} else {};
    var withService := if p.document && p.service then {G.Service} else {};
    var withCompany := if p.document && p.service && p.company then {G.Company} else {};
    assert G.Classes(documents) == withDocument + withLanguage by {
      G.ClassesAppend(onlyDocument, onlyLanguage);
      if p.document { G.ClassesOfOne(DocumentNode(p.service, p.company)); }
      if p.language { G.ClassesOfOne(LanguageNode()); }
    }
    assert G.Classes([root] + documents) == {G.DocumentsLanguages} + withDocument + withLanguage by {
      G.ClassesAppend([root], documents);
      G.ClassesOfOne(root);
    }
    assert G.Classes(services) == withService by {
      if p.document && p.service { G.ClassesOfOne(ServiceNode(p.company)); }
    }
    assert G.Classes(companies) == withCompany by {
      if p.document && p.service && p.company { G.ClassesOfOne(CompanyNode()); }
    }
    G.ClassesAppend([root] + documents, services);
    G.ClassesAppend([root] + documents + services, companies);
  }
}
