/** The `run` command of the company/service schema
    (src/docsnaps/management/commands/_run.py): one raw query joins every
    enabled document instance with its service, document and language names
    and the text of its latest snapshot; each instance's document is then
    requested over HTTPS and, when a transformer for it is installed, the
    transformer is applied to the text received. */
module ServiceRun {
  import opened Common
  import opened Text
  import opened Snapshots

  /** A DocumentsLanguages row joined with the names the query selects. */
  datatype Instance = Instance(
    id: nat,
    serviceName: string,
    documentName: string,
    languageName: string,
    languageCode: string,
    url: string,
    isEnabled: bool)

  /** One row of the raw query: the instance and `latest_snapshot_text`. */
  datatype JobRow = JobRow(instance: Instance, latestText: Option<string>)

  /** The texts of the snapshots of `job` among `rows` that have no later
      sibling in `all`, in table order. */
  function LatestTexts(job: nat, rows: seq<SnapshotRow>, all: seq<SnapshotRow>): (r: seq<Option<string>>)
    ensures |r| <= |rows|
  {
    if rows == [] then []
    else
      (if rows[0].job == job && NoLaterSibling(rows[0], all) then [rows[0].text] else [])
      + LatestTexts(job, rows[1..], all)
  }

  /** The rows one enabled instance contributes to the query: the LEFT JOIN
      keeps one row with a NULL text when the instance has no snapshot, and
      one row per snapshot without a later sibling otherwise. */
  function InstanceRows(x: Instance, snapshots: seq<SnapshotRow>): (r: seq<JobRow>)
    ensures forall row :: row in r ==> row.instance == x
    ensures !HasSnapshot(x.id, snapshots) ==> |r| == 1 && r[0].latestText.None?
    ensures HasSnapshot(x.id, snapshots) ==> |r| <= |snapshots|
  {
    if HasSnapshot(x.id, snapshots) then RowsOf(x, LatestTexts(x.id, snapshots, snapshots))
    else [JobRow(x, None)]
  }

  function RowsOf(x: Instance, texts: seq<Option<string>>): (r: seq<JobRow>)
    ensures |r| == |texts|
    ensures forall i :: 0 <= i < |r| ==> r[i] == JobRow(x, texts[i])
  {
    if texts == [] then [] else [JobRow(x, texts[0])] + RowsOf(x, texts[1..])
  }

  /** The raw query of `handle`: the rows of every enabled instance. */
  function JobQuery(instances: seq<Instance>, snapshots: seq<SnapshotRow>): (r: seq<JobRow>)
    ensures forall row :: row in r ==> row.instance in instances && row.instance.isEnabled
  {
    if instances == [] then []
    else
      (if instances[0].isEnabled then InstanceRows(instances[0], snapshots) else [])
      + JobQuery(instances[1..], snapshots)
  }

  /** Among the snapshots from position k on, at most one of a job is
      without a later sibling when no two snapshots of a job share an
      instant, and there is one exactly when such a snapshot exists there. */
  lemma {:induction false} AtMostOneLatest(job: nat, all: seq<SnapshotRow>, k: nat)
    requires UniqueInstants(all) && k <= |all|
    ensures |LatestTexts(job, all[k..], all)| <= 1
    ensures |LatestTexts(job, all[k..], all)| == 1
            <==> exists i :: k <= i < |all| && all[i].job == job && NoLaterSibling(all[i], all)
    decreases |all| - k
  {
    if k < |all| {
      assert all[k..][1..] == all[k + 1..];
      AtMostOneLatest(job, all, k + 1);
      if all[k].job == job && NoLaterSibling(all[k], all) {
        forall i | k + 1 <= i < |all| && all[i].job == job
          ensures !NoLaterSibling(all[i], all)
        {
          if NoLaterSibling(all[i], all) {
            LatestUnique(all, k, i);
          }
        }
      }
    }
  }

  /** With one snapshot per instance and instant, every enabled instance
      gives exactly one query row: its latest snapshot's text, or NULL when
      it has no snapshot. */
  lemma InstanceRowsSingle(x: Instance, snapshots: seq<SnapshotRow>)
    requires UniqueInstants(snapshots)
    ensures |InstanceRows(x, snapshots)| == 1
    ensures InstanceRows(x, snapshots)[0].instance == x
    ensures !HasSnapshot(x.id, snapshots) ==> InstanceRows(x, snapshots)[0].latestText == None
  {
    if HasSnapshot(x.id, snapshots) {
      var s := LatestOf(x.id, snapshots);
      var i :| 0 <= i < |snapshots| && snapshots[i] == s;
      AtMostOneLatest(x.id, snapshots, 0);
      assert snapshots[0..] == snapshots;
    }
  }

  /** The text of the single row is the text of the latest snapshot. */
  lemma {:induction false} LatestTextIsLatest(job: nat, all: seq<SnapshotRow>, k: nat, i: nat)
    requires UniqueInstants(all) && k <= i < |all|
    requires all[i].job == job && NoLaterSibling(all[i], all)
    ensures LatestTexts(job, all[k..], all) == [all[i].text]
    decreases |all| - k
  {
    assert all[k..][1..] == all[k + 1..];
    if k == i {
      AtMostOneLatest(job, all, k + 1);
      forall j | k + 1 <= j < |all| && all[j].job == job
        ensures !NoLaterSibling(all[j], all)
      {
        if NoLaterSibling(all[j], all) {
          LatestUnique(all, i, j);
        }
      }
    } else {
      LatestTextIsLatest(job, all, k + 1, i);
    }
  }

  /** Every enabled instance appears in the query, and a disabled one never. */
  lemma {:induction false} JobQueryCoversEnabled(instances: seq<Instance>, snapshots: seq<SnapshotRow>, x: Instance)
    requires UniqueInstants(snapshots)
    requires x in instances && x.isEnabled
    ensures exists row :: row in JobQuery(instances, snapshots) && row.instance == x
  {
    if instances[0] == x {
      InstanceRowsSingle(x, snapshots);
      assert InstanceRows(x, snapshots)[0] in JobQuery(instances, snapshots);
    } else {
      JobQueryCoversEnabled(instances[1..], snapshots, x);
      var row :| row in JobQuery(instances[1..], snapshots) && row.instance == x;
      assert row in JobQuery(instances, snapshots);
    }
  }

  /** An installed transformer class: `transform(text)`. */
  type Transformer = string -> string

  /** The importable transformer modules: module name to the classes it
      defines, by class name. */
  type TransformerModules = map<string, map<string, Transformer>>

  const TransformersPackage := "docsnaps.transformers"

  /** The module a service's transformers live in: the service name lower
      cased, with spaces replaced by underscores, inside the package. */
  function TransformerModuleName(serviceName: string): (r: string)
    ensures |r| == |TransformersPackage| + 1 + |serviceName|
    ensures r[..|TransformersPackage| + 1] == TransformersPackage + "."
    ensures forall i :: |TransformersPackage| + 1 <= i < |r| ==> r[i] != ' ' && !IsUpper(r[i])
  {
    TransformersPackage + "." + ReplaceChar(Lower(serviceName), ' ', '_')
  }

  /** The class a document's transformer has: the document name title
      cased, with its spaces removed. */
  function TransformerClassName(documentName: string): (r: string)
    ensures ' ' !in r
  {
    RemoveChar(Title(documentName), ' ')
  }

  /** The class name of a language-specific transformer: the document's
      class name followed by the title-cased ISO 639-1 code. */
  function LanguageClassName(documentName: string, languageCode: string): (r: string)
    ensures |r| == |TransformerClassName(documentName)| + |languageCode|
    ensures r[..|TransformerClassName(documentName)|] == TransformerClassName(documentName)
  {
    TransformerClassName(documentName) + Title(languageCode)
  }

  /** `_transform_document`: the transformer to apply, if any. */
  function FindTransformer(x: Instance, modules: TransformerModules): (r: Option<Transformer>)
    ensures r.None? <==>
            TransformerModuleName(x.serviceName) !in modules
            || (LanguageClassName(x.documentName, x.languageCode) !in modules[TransformerModuleName(x.serviceName)]
                && TransformerClassName(x.documentName) !in modules[TransformerModuleName(x.serviceName)])
    ensures r.Some? ==>
            var classes := modules[TransformerModuleName(x.serviceName)];
            (LanguageClassName(x.documentName, x.languageCode) in classes
             && r.value == classes[LanguageClassName(x.documentName, x.languageCode)])
            || (TransformerClassName(x.documentName) in classes
                && r.value == classes[TransformerClassName(x.documentName)])
  {
    var moduleName := TransformerModuleName(x.serviceName);
    if moduleName !in modules then None
    else
      var classes := modules[moduleName];
      var documentClass := TransformerClassName(x.documentName);
      var languageClass := LanguageClassName(x.documentName, x.languageCode);
      if languageClass in classes then Some(classes[languageClass])
      else if documentClass in classes then Some(classes[documentClass])
      else None
  }

  /** `_transform_document(instance, text)`: the text after the instance's
      transformer, or unchanged when there is none. */
  function TransformDocument(x: Instance, text: string, modules: TransformerModules): (r: string)
    ensures FindTransformer(x, modules).None? ==> r == text
    ensures FindTransformer(x, modules).Some? ==> r == FindTransformer(x, modules).value(text)
  {
    match FindTransformer(x, modules)
    case None => text
    case Some(transform) => transform(text)
  }

  /** A service without a transformer module leaves every text unchanged. */
  lemma NoModuleKeepsText(x: Instance, text: string, modules: TransformerModules)
    requires TransformerModuleName(x.serviceName) !in modules
    ensures TransformDocument(x, text, modules) == text
  {
  }

  /** A language-specific transformer takes priority over the document's. */
  lemma LanguageTransformerFirst(x: Instance, text: string, modules: TransformerModules)
    requires TransformerModuleName(x.serviceName) in modules
    requires LanguageClassName(x.documentName, x.languageCode) in modules[TransformerModuleName(x.serviceName)]
    ensures TransformDocument(x, text, modules)
            == modules[TransformerModuleName(x.serviceName)][LanguageClassName(x.documentName, x.languageCode)](text)
  {
  }

  /** Without a language-specific transformer the document's is applied,
      and without either the text is unchanged. */
  lemma DocumentTransformerFallback(x: Instance, text: string, modules: TransformerModules)
    requires TransformerModuleName(x.serviceName) in modules
    requires LanguageClassName(x.documentName, x.languageCode) !in modules[TransformerModuleName(x.serviceName)]
    ensures var classes := modules[TransformerModuleName(x.serviceName)];
            var documentClass := TransformerClassName(x.documentName);
            TransformDocument(x, text, modules)
            == if documentClass in classes then classes[documentClass](text) else text
  {
  }

  /** Services whose names differ only in letter case share one
      transformer module. */
  lemma ModuleNameIgnoresCase(a: string, b: string)
    requires |a| == |b|
    requires forall i :: 0 <= i < |a| ==> LowerChar(a[i]) == LowerChar(b[i])
    ensures TransformerModuleName(a) == TransformerModuleName(b)
  {
    assert Lower(a) == Lower(b);
  }

  /** The response of `requests.get(url)`, or the exception it raised. */
  datatype FetchOutcome =
    | Response(statusCode: nat, body: string)
    | RequestFailed(exceptionName: string)

  /** What one loop round reports. */
  datatype JobResult =
    | HttpError(statusCode: nat)          // `raise_for_status` raised HTTPError
    | RequestError(exceptionName: string) // any other RequestException
    | Transformed(text: string)           // the response text after transformation

  datatype RunEntry = RunEntry(heading: string, result: JobResult)

  /** `response.raise_for_status()` raises for client and server errors. */
  predicate IsErrorStatus(status: nat)
  {
    400 <= status < 600
  }

  /** `' '.join([service_name, document_name, 'in', language_name])`. */
  function Heading(x: Instance): (r: string)
    ensures r == x.serviceName + " " + x.documentName + " in " + x.languageName
  {
    x.serviceName + " " + x.documentName + " " + "in" + " " + x.languageName
  }

  function RequestUrl(x: Instance): (r: string)
    ensures |r| == 8 + |x.url|
    ensures r[..8] == "https://" && r[8..] == x.url
  {
    "https://" + x.url
  }

  /** One round of the loop in `handle`. */
  function ProcessRow(row: JobRow, fetch: string -> FetchOutcome, modules: TransformerModules): (r: RunEntry)
    ensures r.heading == Heading(row.instance)
    ensures r.result.Transformed? <==>
            fetch(RequestUrl(row.instance)).Response? && !IsErrorStatus(fetch(RequestUrl(row.instance)).statusCode)
    ensures r.result.Transformed? ==>
            r.result.text == TransformDocument(row.instance, fetch(RequestUrl(row.instance)).body, modules)
    ensures r.result.HttpError? ==> fetch(RequestUrl(row.instance)).Response? && r.result.statusCode == fetch(RequestUrl(row.instance)).statusCode
  {
    var result :=
      match fetch(RequestUrl(row.instance))
      case RequestFailed(name) => RequestError(name)
      case Response(status, body) =>
        if IsErrorStatus(status) then HttpError(status)
        else Transformed(TransformDocument(row.instance, body, modules));
    RunEntry(Heading(row.instance), result)
  }

  /** A failed request skips the instance: nothing is transformed, and the
      status or the exception's name is reported. */
  lemma FailedRequestSkipsTransform(row: JobRow, fetch: string -> FetchOutcome, modules: TransformerModules)
    ensures var outcome := fetch(RequestUrl(row.instance));
            var result := ProcessRow(row, fetch, modules).result;
            (result.Transformed? <==> outcome.Response? && !IsErrorStatus(outcome.statusCode))
            && (outcome.RequestFailed? ==> result == RequestError(outcome.exceptionName))
            && (outcome.Response? && IsErrorStatus(outcome.statusCode) ==> result == HttpError(outcome.statusCode))
            && (result.Transformed? ==> result.text == TransformDocument(row.instance, outcome.body, modules))
  {
  }

  /** The loop of `handle` over the query's rows, in order. */
  method RunJobs(rows: seq<JobRow>, fetch: string -> FetchOutcome, modules: TransformerModules)
    returns (entries: seq<RunEntry>)
    ensures |entries| == |rows|
    ensures forall i :: 0 <= i < |rows| ==> entries[i] == ProcessRow(rows[i], fetch, modules)
  {
    entries := [];
    for i := 0 to |rows|
      invariant |entries| == i
      invariant forall k :: 0 <= k < i ==> entries[k] == ProcessRow(rows[k], fetch, modules)
    {
      var instance := rows[i].instance;
      var result;
      var outcome := fetch(RequestUrl(instance));
      match outcome {
        case RequestFailed(name) =>
          result := RequestError(name);
        case Response(status, body) =>
          if IsErrorStatus(status) {
            result := HttpError(status);
          } else {
            var text := TransformDocument(instance, body, modules);
            result := Transformed(text);
          }
      }
      entries := entries + [RunEntry(Heading(instance), result)];
    }
  }

  /** `handle`: runs the query and processes each row it returns. */
  method Handle(instances: seq<Instance>, snapshots: seq<SnapshotRow>, fetch: string -> FetchOutcome,
                modules: TransformerModules)
    returns (entries: seq<RunEntry>)
    ensures |entries| == |JobQuery(instances, snapshots)|
    ensures forall i :: 0 <= i < |entries| ==>
              entries[i] == ProcessRow(JobQuery(instances, snapshots)[i], fetch, modules)
  {
    var rows := JobQuery(instances, snapshots);
    entries := RunJobs(rows, fetch, modules);
  }
}
