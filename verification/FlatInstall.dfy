/** The `install` command of the flat schema
    (src/django_docsnaps/management/commands/_install.py, over the tables of
    src/docsnaps/models.py): the plugin module's interface and model graphs
    are validated, then every graph is loaded into the store by
    get-or-create on natural keys, all inside one transaction.

    The store is a class whose fields are the three tables, each a map from
    the table's natural key to the record: Document by (module, name),
    Language by its ISO 639-1 code, DocumentsLanguages by (document,
    language). The unique constraints of the schema are therefore kept by
    construction. */
module FlatInstall {
  import opened Common
  import opened Text
  import G = ModelGraph
  import V = PluginValidation

  datatype DocumentKey = DocumentKey(moduleName: string, name: string)

  datatype Document = Document(moduleName: string, name: string)

  datatype Language = Language(name: string, code: string)

  /** A DocumentsLanguages row: the non-key columns. */
  datatype DocumentInstance = DocumentInstance(url: string, isEnabled: bool)

  datatype InstanceKey = InstanceKey(document: DocumentKey, languageCode: string)

  /** The graph a plugin returns: a DocumentsLanguages instance with its
      document and language. */
  datatype Graph = Graph(document: Document, language: Language, url: string)

  datatype Tables = Tables(
    documents: map<DocumentKey, Document>,
    languages: map<string, Language>,
    instances: map<InstanceKey, DocumentInstance>)

  function KeyOf(d: Document): (k: DocumentKey)
    ensures k.moduleName == d.moduleName && k.name == d.name
  {
    DocumentKey(d.moduleName, d.name)
  }

  function InstanceKeyOf(g: Graph): (k: InstanceKey)
    ensures k.document == KeyOf(g.document) && k.languageCode == g.language.code
  {
    InstanceKey(KeyOf(g.document), g.language.code)
  }

  // ---------------------------------------------------------------------
  // Warnings

  /** The warning for a Document already stored: it names the document
      right after its fixed head. */
  function DocumentExistsWarning(d: Document): (w: string)
    ensures |w| > |DocumentWarningHead| + |d.name|
    ensures w[..|DocumentWarningHead|] == DocumentWarningHead
    ensures w[|DocumentWarningHead|..|DocumentWarningHead| + |d.name|] == d.name
  {
    "Document \"" + d.name + "\" for module " + d.moduleName + " already exists."
  }

  const DocumentWarningHead := "Document \""

  /** The warning for a Language already stored: it names the ISO 639-1
      code right after its fixed head. */
  function LanguageExistsWarning(code: string): (w: string)
    ensures |w| > |LanguageWarningHead| + |code|
    ensures w[..|LanguageWarningHead|] == LanguageWarningHead
    ensures w[|LanguageWarningHead|..|LanguageWarningHead| + |code|] == code
  {
    "Language with 639-1 ISO code \"" + code + "\" already exists. New record not inserted."
  }

  const LanguageWarningHead := "Language with 639-1 ISO code \""

  const NameSentenceStart := "Additionally, existing record has name \""
  const NameSentenceMiddle := "\" while the new record had name \""
  const NameSentenceEnd := "\"."

  function LanguageNameWarning(existingName: string, newName: string): string
  {
    NameSentenceStart + existingName + NameSentenceMiddle + newName + NameSentenceEnd
  }

  /** The warning for a Language that already exists: the second sentence
      names both languages when the names differ ignoring case. */
  function LanguageWarning(incoming: Language, stored: Language): (w: string)
    ensures Lower(incoming.name) == Lower(stored.name) ==> w == LanguageExistsWarning(incoming.code)
    ensures Lower(incoming.name) != Lower(stored.name) ==>
              w == LanguageExistsWarning(incoming.code) + " " + LanguageNameWarning(stored.name, incoming.name)
  {
    var warning := LanguageExistsWarning(incoming.code);
    if Lower(incoming.name) != Lower(stored.name) then
      Join2(warning, LanguageNameWarning(stored.name, incoming.name))
    else warning
  }

  /** `' '.join([a, b])`. */
  function Join2(a: string, b: string): (r: string)
    ensures |r| == |a| + 1 + |b| && r[..|a|] == a && r[|a|] == ' ' && r[|a| + 1..] == b
  {
    a + " " + b
  }

  /** The warning as the source formats it: the second sentence is filled
      with the ISO codes of the two records, where the names are meant. */
  function LanguageWarningAsWritten(incoming: Language, stored: Language): (w: string)
    ensures Lower(incoming.name) == Lower(stored.name) ==> w == LanguageExistsWarning(incoming.code)
  {
    var warning := LanguageExistsWarning(incoming.code);
    if Lower(incoming.name) != Lower(stored.name) then
      Join2(warning, LanguageNameWarning(stored.code, incoming.code))
    else warning
  }

  /** As written, the warning is the same whatever the two differing names
      are: it cannot say which names clash. */
  lemma LanguageWarningAsWrittenHidesNames(code: string, name1: string, stored1: string, name2: string, stored2: string)
    requires Lower(name1) != Lower(stored1) && Lower(name2) != Lower(stored2)
    ensures LanguageWarningAsWritten(Language(name1, code), Language(stored1, code))
            == LanguageWarningAsWritten(Language(name2, code), Language(stored2, code))
  {
  }

  /** A concrete case: an existing "English" record and an incoming
      "Anglais" record under code "en" are reported as having the names
      "en" and "en". */
  lemma LanguageWarningAsWrittenExample()
    ensures LanguageWarningAsWritten(Language("Anglais", "en"), Language("English", "en"))
            == LanguageExistsWarning("en") + " " + LanguageNameWarning("en", "en")
  {
    assert Lower("Anglais") != Lower("English") by {
      assert Lower("Anglais")[0] == 'a' && Lower("English")[0] == 'e';
    }
  }

  /** Two strings that differ only in one middle part are equal exactly
      when the middle parts are. */
  lemma MiddleCancels(front: string, x: string, y: string, back: string)
    ensures front + x + back == front + y + back <==> x == y
  {
    var sx, sy := front + x + back, front + y + back;
    if sx == sy {
      assert |x| == |y|;
      assert x == sx[|front|..|front| + |x|];
      assert y == sy[|front|..|front| + |y|];
    }
  }

  lemma ExistingNameReadsBack(existing1: string, existing2: string, newName: string)
    requires LanguageNameWarning(existing1, newName) == LanguageNameWarning(existing2, newName)
    ensures existing1 == existing2
  {
    var back := NameSentenceMiddle + newName + NameSentenceEnd;
    assert LanguageNameWarning(existing1, newName) == NameSentenceStart + existing1 + back;
    assert LanguageNameWarning(existing2, newName) == NameSentenceStart + existing2 + back;
    MiddleCancels(NameSentenceStart, existing1, existing2, back);
  }

  /** As intended, the warning tells different names apart: with everything
      else fixed, a different existing name or a different new name gives a
      different warning. */
  lemma LanguageWarningNamesBoth(code: string, incoming: string, stored1: string, stored2: string)
    requires Lower(incoming) != Lower(stored1) && Lower(incoming) != Lower(stored2)
    ensures LanguageWarning(Language(incoming, code), Language(stored1, code))
            == LanguageWarning(Language(incoming, code), Language(stored2, code))
            <==> stored1 == stored2
  {
    var w1 := LanguageWarning(Language(incoming, code), Language(stored1, code));
    var w2 := LanguageWarning(Language(incoming, code), Language(stored2, code));
    var head := LanguageExistsWarning(code);
    if w1 == w2 {
      assert LanguageNameWarning(stored1, incoming) == w1[|head| + 1..];
      assert LanguageNameWarning(stored2, incoming) == w2[|head| + 1..];
      ExistingNameReadsBack(stored1, stored2, incoming);
    }
  }

  lemma LanguageWarningNamesIncoming(code: string, stored: string, incoming1: string, incoming2: string)
    requires Lower(incoming1) != Lower(stored) && Lower(incoming2) != Lower(stored)
    ensures LanguageWarning(Language(incoming1, code), Language(stored, code))
            == LanguageWarning(Language(incoming2, code), Language(stored, code))
            <==> incoming1 == incoming2
  {
    var w1 := LanguageWarning(Language(incoming1, code), Language(stored, code));
    var w2 := LanguageWarning(Language(incoming2, code), Language(stored, code));
    var head := LanguageExistsWarning(code);
    if w1 == w2 {
      assert LanguageNameWarning(stored, incoming1) == w1[|head| + 1..];
      assert LanguageNameWarning(stored, incoming2) == w2[|head| + 1..];
      var front := NameSentenceStart + stored + NameSentenceMiddle;
      MiddleCancels(front, incoming1, incoming2, NameSentenceEnd);
    }
  }

  /** The warning for an instance stored with another url: it names the
      old url right after its head and ends with the new url and `".`. */
  function UrlUpdatedWarning(oldUrl: string, newUrl: string): (w: string)
    ensures |w| == |UrlWarningHead| + |oldUrl| + |UrlWarningMiddle| + |newUrl| + 2
    ensures w[..|UrlWarningHead|] == UrlWarningHead
    ensures w[|UrlWarningHead|..|UrlWarningHead| + |oldUrl|] == oldUrl
    ensures w[|w| - 2 - |newUrl|..|w| - 2] == newUrl
  {
    "Updated document instance URL. Old URL was: \"" + oldUrl + "\". New URL is: \"" + newUrl + "\"."
  }

  const UrlWarningHead := "Updated document instance URL. Old URL was: \""
  const UrlWarningMiddle := "\". New URL is: \""

  // ---------------------------------------------------------------------
  // One graph

  datatype LoadResult = LoadResult(tables: Tables, warnings: seq<string>)

  /** `Document.objects.get_or_create`, warning when the row exists. */
  function DocumentStep(t: Tables, g: Graph): (r: LoadResult)
    ensures r.warnings == if KeyOf(g.document) in t.documents then [DocumentExistsWarning(g.document)] else []
  {
    var f := GetOrCreate(t.documents, KeyOf(g.document), g.document);
    LoadResult(t.(documents := f.table), if f.created then [] else [DocumentExistsWarning(g.document)])
  }

  /** `Language.objects.get_or_create`, warning about the stored row when it
      exists. */
  function LanguageStep(t: Tables, g: Graph): (r: LoadResult)
    ensures r.warnings == if g.language.code in t.languages
                          then [LanguageWarning(g.language, t.languages[g.language.code])] else []
  {
    var f := GetOrCreate(t.languages, g.language.code, g.language);
    LoadResult(t.(languages := f.table), if f.created then [] else [LanguageWarning(g.language, f.record)])
  }

  /** `DocumentsLanguages.objects.get_or_create`, then the url overwrite
      when the existing row has a different one. */
  function InstanceStep(t: Tables, g: Graph, disabled: bool): (r: LoadResult)
    ensures r.warnings == if InstanceKeyOf(g) in t.instances && t.instances[InstanceKeyOf(g)].url != g.url
                          then [UrlUpdatedWarning(t.instances[InstanceKeyOf(g)].url, g.url)] else []
  {
    var isEnabled := disabled == false;
    var key := InstanceKeyOf(g);
    var f := GetOrCreate(t.instances, key, DocumentInstance(g.url, isEnabled));
    if !f.created && g.url != f.record.url then
      LoadResult(t.(instances := f.table[key := f.record.(url := g.url)]),
                 [UrlUpdatedWarning(f.record.url, g.url)])
    else
      LoadResult(t.(instances := f.table), [])
  }

  /** `ModelLoader._load` as a value: get-or-create the Document, then the
      Language, then the DocumentsLanguages row, whose url is overwritten
      when it exists with a different one. */
  function LoadGraph(t: Tables, g: Graph, disabled: bool): (r: LoadResult)
    ensures KeyOf(g.document) in r.tables.documents && g.language.code in r.tables.languages
    ensures InstanceKeyOf(g) in r.tables.instances && r.tables.instances[InstanceKeyOf(g)].url == g.url
    ensures |r.warnings| <= 3
  {
    var document := DocumentStep(t, g);
    var language := LanguageStep(document.tables, g);
    var instance := InstanceStep(language.tables, g, disabled);
    LoadResult(instance.tables, document.warnings + language.warnings + instance.warnings)
  }

  lemma DocumentStepTables(t: Tables, g: Graph)
    ensures var r := DocumentStep(t, g).tables;
            r.languages == t.languages && r.instances == t.instances
            && GrowsBy(t.documents, r.documents, KeyOf(g.document), g.document)
  {
  }

  lemma LanguageStepTables(t: Tables, g: Graph)
    ensures var r := LanguageStep(t, g).tables;
            r.documents == t.documents && r.instances == t.instances
            && GrowsBy(t.languages, r.languages, g.language.code, g.language)
  {
  }

  lemma InstanceStepTables(t: Tables, g: Graph, disabled: bool)
    ensures var r := InstanceStep(t, g, disabled).tables;
            r.documents == t.documents && r.languages == t.languages
            && r.instances.Keys == t.instances.Keys + {InstanceKeyOf(g)}
            && (forall k :: k in t.instances && k != InstanceKeyOf(g) ==> r.instances[k] == t.instances[k])
            && (InstanceKeyOf(g) !in t.instances ==> r.instances[InstanceKeyOf(g)] == DocumentInstance(g.url, !disabled))
            && (InstanceKeyOf(g) in t.instances ==>
                  r.instances[InstanceKeyOf(g)] == t.instances[InstanceKeyOf(g)].(url := g.url))
  {
  }

  /** What one load does to the tables: Document and Language rows are only
      ever added, never changed; a new DocumentsLanguages row gets the
      incoming url and `is_enabled == not disabled`; an existing one keeps
      its `is_enabled` and takes the incoming url; no other row changes. */
  lemma LoadGraphTables(t: Tables, g: Graph, disabled: bool)
    ensures var r := LoadGraph(t, g, disabled).tables;
            GrowsBy(t.documents, r.documents, KeyOf(g.document), g.document)
            && GrowsBy(t.languages, r.languages, g.language.code, g.language)
            && r.instances.Keys == t.instances.Keys + {InstanceKeyOf(g)}
            && (forall k :: k in t.instances && k != InstanceKeyOf(g) ==> r.instances[k] == t.instances[k])
            && (InstanceKeyOf(g) !in t.instances ==> r.instances[InstanceKeyOf(g)] == DocumentInstance(g.url, !disabled))
            && (InstanceKeyOf(g) in t.instances ==>
                  r.instances[InstanceKeyOf(g)] == t.instances[InstanceKeyOf(g)].(url := g.url))
  {
    var d := DocumentStep(t, g);
    var l := LanguageStep(d.tables, g);
    DocumentStepTables(t, g);
    LanguageStepTables(d.tables, g);
    InstanceStepTables(l.tables, g, disabled);
  }

  /** The warnings of one load: one when the Document exists, one when the
      Language exists, and one naming both urls when an existing
      DocumentsLanguages row had a different url. */
  lemma LoadGraphWarnings(t: Tables, g: Graph, disabled: bool)
    ensures LoadGraph(t, g, disabled).warnings ==
              (if KeyOf(g.document) in t.documents then [DocumentExistsWarning(g.document)] else [])
              + (if g.language.code in t.languages
                 then [LanguageWarning(g.language, t.languages[g.language.code])] else [])
              + (if InstanceKeyOf(g) in t.instances && t.instances[InstanceKeyOf(g)].url != g.url
                 then [UrlUpdatedWarning(t.instances[InstanceKeyOf(g)].url, g.url)] else [])
  {
    var d := DocumentStep(t, g);
    var l := LanguageStep(d.tables, g);
    assert d.tables.languages == t.languages;
    assert l.tables.instances == t.instances;
  }

  /** Loading into an empty store inserts the three records and warns about
      nothing. */
  lemma FirstLoadIsClean(g: Graph, disabled: bool)
    ensures var r := LoadGraph(Tables(map[], map[], map[]), g, disabled);
            r.warnings == []
            && r.tables.instances == map[InstanceKeyOf(g) := DocumentInstance(g.url, !disabled)]
            && r.tables.documents == map[KeyOf(g.document) := g.document]
            && r.tables.languages == map[g.language.code := g.language]
  {
  }

  /** Loading the same graph a second time changes nothing, whatever the
      disabled flag says the second time, and warns only that the Document
      and the Language exist. */
  lemma LoadGraphIdempotent(t: Tables, g: Graph, disabled: bool, disabledAgain: bool)
    ensures var once := LoadGraph(t, g, disabled);
            var twice := LoadGraph(once.tables, g, disabledAgain);
            twice.tables == once.tables
            && twice.warnings == [DocumentExistsWarning(g.document),
                                  LanguageWarning(g.language, once.tables.languages[g.language.code])]
            && (g.language.code !in t.languages ==> twice.warnings[1] == LanguageExistsWarning(g.language.code))
  {
    var once := LoadGraph(t, g, disabled);
    LoadGraphTables(t, g, disabled);
    LoadGraphTables(once.tables, g, disabledAgain);
    LoadGraphWarnings(once.tables, g, disabledAgain);
    var twice := LoadGraph(once.tables, g, disabledAgain);
    assert twice.tables.documents == once.tables.documents;
    assert twice.tables.languages == once.tables.languages;
    assert twice.tables.instances == once.tables.instances;
  }

  /** Reinstalling with a new url for an existing document instance
      overwrites the url, keeps `is_enabled`, and warns that the Document
      and the Language exist and, last, that the url changed from the old
      to the new one. */
  lemma ReinstallUpdatesUrl(t: Tables, g: Graph, newUrl: string, disabled: bool)
    requires newUrl != g.url
    ensures var first := LoadGraph(t, g, disabled);
            var second := LoadGraph(first.tables, g.(url := newUrl), disabled);
            second.tables.instances.Keys == first.tables.instances.Keys
            && second.tables.instances[InstanceKeyOf(g)]
               == first.tables.instances[InstanceKeyOf(g)].(url := newUrl)
            && second.warnings == [DocumentExistsWarning(g.document),
                                   LanguageWarning(g.language, first.tables.languages[g.language.code]),
                                   UrlUpdatedWarning(g.url, newUrl)]
  {
    var first := LoadGraph(t, g, disabled);
    var h := g.(url := newUrl);
    assert InstanceKeyOf(h) == InstanceKeyOf(g) && KeyOf(h.document) == KeyOf(g.document);
    LoadGraphTables(t, g, disabled);
    LoadGraphTables(first.tables, h, disabled);
    StoredGraphWarnings(first.tables, h, g.url, disabled);
  }

  /** Loading a graph whose three records are all stored, the instance
      under another url, gives all three warnings. */
  lemma StoredGraphWarnings(t: Tables, g: Graph, oldUrl: string, disabled: bool)
    requires KeyOf(g.document) in t.documents && g.language.code in t.languages
    requires InstanceKeyOf(g) in t.instances && t.instances[InstanceKeyOf(g)].url == oldUrl != g.url
    ensures LoadGraph(t, g, disabled).warnings
            == [DocumentExistsWarning(g.document),
                LanguageWarning(g.language, t.languages[g.language.code]),
                UrlUpdatedWarning(oldUrl, g.url)]
  {
    LoadGraphWarnings(t, g, disabled);
  }

  // ---------------------------------------------------------------------
  // The store and the loader

  class Database {
    var documents: map<DocumentKey, Document>
    var languages: map<string, Language>
    var instances: map<InstanceKey, DocumentInstance>

    function Contents(): (t: Tables)
      reads this
      ensures t.documents == documents && t.languages == languages && t.instances == instances
    {
      Tables(documents, languages, instances)
    }

    constructor(initial: Tables)
      ensures Contents() == initial
    {
      documents := initial.documents;
      languages := initial.languages;
      instances := initial.instances;
    }

    /** `Document.objects.get_or_create(module=..., name=...)`. */
    method GetOrCreateDocument(incoming: Document) returns (record: Document, created: bool)
      modifies this`documents
      ensures var f := GetOrCreate(old(documents), KeyOf(incoming), incoming);
              record == f.record && created == f.created && documents == f.table
    {
      var key := KeyOf(incoming);
      if key in documents {
        record, created := documents[key], false;
      } else {
        documents := documents[key := incoming];
        record, created := incoming, true;
      }
    }

    /** `Language.objects.get_or_create(code_iso_639_1=..., defaults={'name': ...})`. */
    method GetOrCreateLanguage(incoming: Language) returns (record: Language, created: bool)
      modifies this`languages
      ensures var f := GetOrCreate(old(languages), incoming.code, incoming);
              record == f.record && created == f.created && languages == f.table
    {
      if incoming.code in languages {
        record, created := languages[incoming.code], false;
      } else {
        languages := languages[incoming.code := incoming];
        record, created := incoming, true;
      }
    }

    /** `DocumentsLanguages.objects.get_or_create(document_id=..., language_id=..., defaults=...)`. */
    method GetOrCreateInstance(key: InstanceKey, defaults: DocumentInstance) returns (record: DocumentInstance, created: bool)
      modifies this`instances
      ensures var f := GetOrCreate(old(instances), key, defaults);
              record == f.record && created == f.created && instances == f.table
    {
      if key in instances {
        record, created := instances[key], false;
      } else {
        instances := instances[key := defaults];
        record, created := defaults, true;
      }
    }

    /** `docs_langs.save()` after its url was changed. */
    method SaveInstance(key: InstanceKey, record: DocumentInstance)
      modifies this`instances
      ensures instances == old(instances)[key := record]
    {
      instances := instances[key := record];
    }

    /** The rollback of the enclosing transaction. */
    method Restore(saved: Tables)
      modifies this
      ensures Contents() == saved
    {
      documents, languages, instances := saved.documents, saved.languages, saved.instances;
    }
  }

  /** `ModelLoader(model, disabled)`: loads one graph on construction. */
  class ModelLoader {
    const disabled: bool
    const model: Graph
    var loadSuccessful: bool
    var warnings: seq<string>

    constructor(db: Database, model: Graph, disabled: bool)
      modifies db
      ensures this.model == model && this.disabled == disabled
      ensures db.Contents() == LoadGraph(old(db.Contents()), model, disabled).tables
      ensures warnings == LoadGraph(old(db.Contents()), model, disabled).warnings
      ensures loadSuccessful
    {
      this.disabled := disabled;
      this.model := model;
      loadSuccessful := false;
      warnings := [];
      new;
      Load(db);
    }

    /** `_load`: the three sections in order, then `load_successful`. */
    method Load(db: Database)
      modifies db, this`warnings, this`loadSuccessful
      requires warnings == []
      ensures db.Contents() == LoadGraph(old(db.Contents()), model, disabled).tables
      ensures warnings == LoadGraph(old(db.Contents()), model, disabled).warnings
      ensures loadSuccessful
    {
      ghost var before := db.Contents();
      ghost var document := DocumentStep(before, model);
      ghost var language := LanguageStep(document.tables, model);
      ghost var instance := InstanceStep(language.tables, model, disabled);
      LoadDocument(db);
      assert db.Contents() == document.tables && warnings == document.warnings;
      LoadLanguage(db);
      assert db.Contents() == language.tables && warnings == document.warnings + language.warnings;
      LoadInstance(db);
      assert db.Contents() == instance.tables;
      loadSuccessful := true;
    }

    /** The Document section of `_load`. */
    method LoadDocument(db: Database)
      modifies db`documents, this`warnings
      ensures var s := DocumentStep(old(db.Contents()), model);
              db.Contents() == s.tables && warnings == old(warnings) + s.warnings
    {
      var document, created := db.GetOrCreateDocument(model.document);
      if !created {
        warnings := warnings + [DocumentExistsWarning(model.document)];
      }
    }

    /** The Language section of `_load`. */
    method LoadLanguage(db: Database)
      modifies db`languages, this`warnings
      ensures var s := LanguageStep(old(db.Contents()), model);
              db.Contents() == s.tables && warnings == old(warnings) + s.warnings
    {
      var language, created := db.GetOrCreateLanguage(model.language);
      if !created {
        warnings := warnings + [LanguageWarning(model.language, language)];
      }
    }

    /** The DocumentsLanguages section of `_load`: a new row is enabled
        unless `disabled`; an existing row with another url takes the
        incoming one and is saved. */
    method LoadInstance(db: Database)
      modifies db`instances, this`warnings
      ensures var s := InstanceStep(old(db.Contents()), model, disabled);
              db.Contents() == s.tables && warnings == old(warnings) + s.warnings
    {
      var isEnabled := disabled == false;
      var key := InstanceKeyOf(model);
      var instance, created := db.GetOrCreateInstance(key, DocumentInstance(model.url, isEnabled));
      if !created && model.url != instance.url {
        var oldUrl := instance.url;
        db.SaveInstance(key, instance.(url := model.url));
        warnings := warnings + [UrlUpdatedWarning(oldUrl, model.url)];
      }
    }
  }

  // ---------------------------------------------------------------------
  // All graphs of a module

  /** Loading every graph in order; the warnings are the last loader's. */
  function LoadAll(t: Tables, graphs: seq<Graph>, disabled: bool): (r: LoadResult)
  {
    if graphs == [] then LoadResult(t, [])
    else LoadGraph(LoadAll(t, graphs[..|graphs| - 1], disabled).tables, graphs[|graphs| - 1], disabled)
  }

  /** Loading one more graph continues from the tables loaded so far. */
  lemma LoadAllStep(t: Tables, graphs: seq<Graph>, i: nat, disabled: bool)
    requires i < |graphs|
    ensures LoadAll(t, graphs[..i + 1], disabled) == LoadGraph(LoadAll(t, graphs[..i], disabled).tables, graphs[i], disabled)
  {
    assert graphs[..i + 1][..i] == graphs[..i];
  }

  /** Between two states of the store no row was removed, no Document or
      Language changed, and no DocumentsLanguages changed its `is_enabled`. */
  predicate KeepsRows(t: Tables, r: Tables)
  {
    (forall k :: k in t.documents ==> k in r.documents && r.documents[k] == t.documents[k])
    && (forall c :: c in t.languages ==> c in r.languages && r.languages[c] == t.languages[c])
    && (forall k :: k in t.instances ==> k in r.instances && r.instances[k].isEnabled == t.instances[k].isEnabled)
  }

  lemma KeepsRowsTransitive(a: Tables, b: Tables, c: Tables)
    requires KeepsRows(a, b) && KeepsRows(b, c)
    ensures KeepsRows(a, c)
  {
  }

  lemma LoadGraphKeepsRows(t: Tables, g: Graph, disabled: bool)
    ensures KeepsRows(t, LoadGraph(t, g, disabled).tables)
  {
    LoadGraphTables(t, g, disabled);
  }

  /** Loading never removes a row and never changes a Document or a
      Language; a DocumentsLanguages row keeps its `is_enabled`. */
  lemma {:induction false} LoadAllKeepsRows(t: Tables, graphs: seq<Graph>, disabled: bool)
    ensures KeepsRows(t, LoadAll(t, graphs, disabled).tables)
  {
    if graphs != [] {
      var init := graphs[..|graphs| - 1];
      var before := LoadAll(t, init, disabled).tables;
      LoadAllKeepsRows(t, init, disabled);
      LoadGraphKeepsRows(before, graphs[|graphs| - 1], disabled);
      KeepsRowsTransitive(t, before, LoadAll(t, graphs, disabled).tables);
    }
  }

  /** The same graph returned twice by the module gives one
      DocumentsLanguages row with the original url and `is_enabled` set. */
  lemma DuplicateGraphLoadsOnce(g: Graph)
    ensures var r := LoadAll(Tables(map[], map[], map[]), [g, g], false);
            r.tables.instances == map[InstanceKeyOf(g) := DocumentInstance(g.url, true)]
  {
    var empty := Tables(map[], map[], map[]);
    assert [g, g][..1] == [g];
    assert [g][..0] == [];
    assert LoadAll(empty, [g, g], false) == LoadGraph(LoadAll(empty, [g], false).tables, g, false);
    FirstLoadIsClean(g, false);
    LoadGraphIdempotent(Tables(map[], map[], map[]), g, false, false);
  }

  /** With the disabled flag, a new document instance is stored disabled. */
  lemma DisabledFlagStoresDisabled(g: Graph)
    ensures var r := LoadAll(Tables(map[], map[], map[]), [g], true);
            r.tables.instances == map[InstanceKeyOf(g) := DocumentInstance(g.url, false)]
  {
    assert [g][..0] == [];
    FirstLoadIsClean(g, true);
  }

  datatype DatabaseFailure = DatabaseFailure(graphIndex: nat, message: string)

  /** How `_load_models` ends: success with the last loader's warnings, a
      CommandError, or, when the module gave no graph at all, the
      UnboundLocalError of reading the warnings of a loader never made. */
  datatype LoadOutcome =
    | Loaded(warnings: seq<string>)
    | CommandError(message: string)
    | UnboundLoader

  const DatabaseErrorPrefix := "A database error occurred: "

  /** `_load_models(module, disabled)`: every graph is loaded inside one
      transaction. A database error raised while loading graph
      `failure.graphIndex` rolls every earlier insert back and becomes a
      CommandError. */
  method LoadModels(db: Database, graphs: seq<Graph>, disabled: bool, failure: Option<DatabaseFailure>)
    returns (outcome: LoadOutcome)
    modifies db
    ensures failure.Some? && failure.value.graphIndex < |graphs| ==>
              outcome == CommandError(DatabaseErrorPrefix + failure.value.message)
              && db.Contents() == old(db.Contents())
    ensures (failure.None? || failure.value.graphIndex >= |graphs|) && graphs == [] ==>
              outcome == UnboundLoader && db.Contents() == old(db.Contents())
    ensures (failure.None? || failure.value.graphIndex >= |graphs|) && graphs != [] ==>
              outcome == Loaded(LoadAll(old(db.Contents()), graphs, disabled).warnings)
              && db.Contents() == LoadAll(old(db.Contents()), graphs, disabled).tables
  {
    var saved := db.Contents();
    var loader: ModelLoader? := null;
    for i := 0 to |graphs|
      invariant db.Contents() == LoadAll(saved, graphs[..i], disabled).tables
      invariant i == 0 <==> loader == null
      invariant loader != null ==> loader.warnings == LoadAll(saved, graphs[..i], disabled).warnings
      invariant failure.Some? ==> failure.value.graphIndex >= i
    {
      if failure.Some? && failure.value.graphIndex == i {
        db.Restore(saved);
        return CommandError(DatabaseErrorPrefix + failure.value.message);
      }
      LoadAllStep(saved, graphs, i, disabled);
      loader := new ModelLoader(db, graphs[i], disabled);
    }
    assert graphs[..|graphs|] == graphs;
    if loader == null {
      return UnboundLoader;
    }
    return Loaded(loader.warnings);
  }

  // ---------------------------------------------------------------------
  // Validation of the plugin module
  /** The model classes every graph of the flat schema must reach. */
  const RequiredClasses: set<G.ModelClass> := {G.Document, G.Language, G.DocumentsLanguages}

  /** `_validate_module_models` of the flat schema: a false (empty) value is
      rejected first, then a value `iter()` rejects, then the first item
      that is not a DocumentsLanguages or whose graph lacks a required
      class. */
  function ValidateModels(m: V.PluginModule): (r: Result<(), V.ValidationError>)
    ensures r.Ok? <==> m.models.Iterable? && m.models.truthy
                       && forall i :: 0 <= i < |m.models.items| ==>
                            m.models.items[i].kind == G.DocumentsLanguages
                            && V.MissingClasses(RequiredClasses, m.models.items[i]) == {}
    ensures !m.models.truthy ==> r == Err(V.EmptyIterable)
    ensures m.models.truthy && m.models.NotIterable? ==> r == Err(V.NotIterableValue(m.models.typeName))
    ensures m.models.truthy && m.models.Iterable? && r.Err? ==>
              exists i :: 0 <= i < |m.models.items| && V.ItemError(RequiredClasses, m.models.items[i]) == Some(r.error)
                          && forall j :: 0 <= j < i ==> V.ItemError(RequiredClasses, m.models.items[j]).None?
  {
    if !m.models.truthy then Err(V.EmptyIterable)
    else if m.models.NotIterable? then Err(V.NotIterableValue(m.models.typeName))
    else V.CheckItems(RequiredClasses, m.models.items)
  }

  // ---------------------------------------------------------------------
  // Messages

  const ModelsModule := "django_docsnaps.models"

  /** The text of the CommandError each failure raises, for module `name`.
      A DocumentsLanguages instance has no `__str__` of its own and prints
      as Django's default "DocumentsLanguages object". */
  function ErrorMessage(moduleName: string, e: V.ValidationError): (msg: string)
  {
    match e
    case NoAttribute(a) => "No attribute \"" + a + "\" in " + moduleName + "."
    case NotCallable(a) => "\"" + a + "\" is not callable in " + moduleName + "."
    case EmptyIterable => moduleName + ".get_models() returned an empty iterable."
    case NotIterableValue(t) => "'" + t + "' object is not iterable"
    case IncorrectType(k) => moduleName + ".get_models() returned incorrect type \"" + V.TypeString(ModelsModule, k) + "\" in iterable."
    case MissingModels(missing) =>
      moduleName + ".get_models() returned instance DocumentsLanguages object, the model relationships under which "
      + "are missing at least one instance of the following models: " + V.MissingList(ModelsModule, missing)
  }

  // ---------------------------------------------------------------------
  // The graph a plugin returns, as the walk sees it

  function DocumentNode(): G.ModelNode
  {
    G.ModelNode(G.Document, [G.Other("document_id"), G.Other("module"), G.Other("name"), G.Other("updated_timestamp")])
  }

  function LanguageNode(): G.ModelNode
  {
    G.ModelNode(G.Language, [G.Other("language_id"), G.Other("name"), G.Other("code_iso_639_1")])
  }

  /** A DocumentsLanguages instance whose document and language may be
      unset (as when a test omits one). */
  function InstanceNode(withDocument: bool, withLanguage: bool): G.ModelNode
  {
    G.ModelNode(G.DocumentsLanguages, [
      G.Other("documents_languages_id"),
      G.ForeignKey("document_id", if withDocument then Some(DocumentNode()) else None),
      G.ForeignKey("language_id", if withLanguage then Some(LanguageNode()) else None),
      G.Other("url"), G.Other("is_enabled"), G.Other("updated_timestamp")])
  }

  /** The parents a DocumentsLanguages instance enqueues: its document,
      then its language, each when set. */
  lemma InstanceParents(withDocument: bool, withLanguage: bool)
    ensures G.ParentsOf(InstanceNode(withDocument, withLanguage).fields)
            == (if withDocument then [DocumentNode()] else []) + (if withLanguage then [LanguageNode()] else [])
  {
    G.ParentsOfTwoForeignKeys(InstanceNode(withDocument, withLanguage).fields, 1, 2);
  }

  /** The flat graph flattens to the DocumentsLanguages instance, then its
      document, then its language, each when set. */
  lemma FlatGraphFlattening(withDocument: bool, withLanguage: bool)
    ensures G.Bfs([InstanceNode(withDocument, withLanguage)])
            == [InstanceNode(withDocument, withLanguage)]
               + (if withDocument then [DocumentNode()] else []) + (if withLanguage then [LanguageNode()] else [])
  {
    LeavesBfs(withDocument, withLanguage);
    RootBfs(withDocument, withLanguage);
    InstanceParents(withDocument, withLanguage);
  }

  lemma LeavesBfs(withDocument: bool, withLanguage: bool)
    ensures var parents := (if withDocument then [DocumentNode()] else []) + (if withLanguage then [LanguageNode()] else []);
            G.Bfs(parents) == parents
  {
    var parents := (if withDocument then [DocumentNode()] else []) + (if withLanguage then [LanguageNode()] else []);
    ParentsAreLeaves(withDocument, withLanguage);
    G.BfsLevels(parents);
    assert G.Bfs([]) == [];
  }

  lemma RootBfs(withDocument: bool, withLanguage: bool)
    ensures var root := InstanceNode(withDocument, withLanguage);
            G.Bfs([root]) == [root] + G.Bfs(G.ParentsOf(root.fields))
  {
    var root := InstanceNode(withDocument, withLanguage);
    G.ChildrenOfOne(root);
    G.BfsLevels([root]);
  }

  /** The document and the language enqueue nothing. */
  lemma ParentsAreLeaves(withDocument: bool, withLanguage: bool)
    ensures G.Children((if withDocument then [DocumentNode()] else []) + (if withLanguage then [LanguageNode()] else []))
            == []
  {
    var document, language := DocumentNode(), LanguageNode();
    assert G.ParentsOf(document.fields) == [] by {
      G.ParentsOfColumns(document.fields);
    }
    assert G.ParentsOf(language.fields) == [] by {
      G.ParentsOfColumns(language.fields);
    }
    if withDocument && withLanguage {
      assert [document] + [language] == [document, language];
      G.ChildrenOfTwo(document, language);
    } else if withDocument {
      assert [document] + [] == [document];
      G.ChildrenOfOne(document);
    } else if withLanguage {
      assert [] + [language] == [language];
      G.ChildrenOfOne(language);
    } else {
      assert G.Children([]) == [];
    }
  }

  /** Validation of the flat graph names exactly the model classes left
      out of it; the complete graph passes. */
  lemma FlatGraphMissing(withDocument: bool, withLanguage: bool)
    ensures V.MissingClasses(RequiredClasses, InstanceNode(withDocument, withLanguage))
            == (if withDocument then {} else {G.Document}) + (if withLanguage then {} else {G.Language})
  {
    var root := InstanceNode(withDocument, withLanguage);
    var reached := {G.DocumentsLanguages}
                   + (if withDocument then {G.Document} else {}) + (if withLanguage then {G.Language} else {});
    assert G.Classes(G.Bfs([root])) == reached by {
      FlatGraphFlattening(withDocument, withLanguage);
      FlatReachedClasses(withDocument, withLanguage);
    }
    assert V.MissingClasses(RequiredClasses, root) == RequiredClasses - reached;
  }

  /** The classes the walk over the flat graph reaches. */
  lemma FlatReachedClasses(withDocument: bool, withLanguage: bool)
    ensures var documents := if withDocument then [DocumentNode()] else [];
            var languages := if withLanguage then [LanguageNode()] else [];
            G.Classes([InstanceNode(withDocument, withLanguage)] + documents + languages)
            == {G.DocumentsLanguages}
               + (if withDocument then {G.Document} else {}) + (if withLanguage then {G.Language} else {})
  {
    var root := InstanceNode(withDocument, withLanguage);
    var documents := if withDocument then [DocumentNode()] else [];
    var languages := if withLanguage then [LanguageNode()] else [];
    G.ClassesOfOne(root);
    G.ClassesAppend([root], documents);
    G.ClassesAppend([root] + documents, languages);
    if withDocument { G.ClassesOfOne(DocumentNode()); } else { assert G.Classes(documents) == {}; }
    if withLanguage { G.ClassesOfOne(LanguageNode()); } else { assert G.Classes(languages) == {}; }
  }
}
