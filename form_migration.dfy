/** Migrating one form: the checks made before any request, the choice of
    transformer, resolving (or creating) the destination form, and then streaming
    the records. Every network and module-loading result is an input (FormIO,
    Session.loadableModules); the model computes what the script does with them. */
module FormMigration {
  import opened JsValues
  import opened Records
  import Invocation

  const NO_SOURCE_MESSAGE := "You must provide a source form or CSV to copy."
  const NO_TRANSFORMER_MESSAGE := "You must provide a transformer middleware file to perform the migration."
  const NO_DESTINATION_MESSAGE := "You must provide a destination form."
  const NO_SERVER_MESSAGE := "No Form.io server provided"

  /** The `limit` query parameter of the single bulk read of the source submissions. */
  const SUBMISSION_LIMIT := "10000000"

  /** What the script's closure knows while migrating a form. */
  datatype Session = Session(
    hasServer: bool,                    // options.formio
    hasSourceClient: bool,              // options.srcFormio
    cwd: string,                        // process.cwd()
    loadableModules: set<string>,       // paths that `require` loads without throwing
    srcHeaders: map<string, string>,
    destHeaders: map<string, string>,
    outerSrc: string,                   // the command's own `src`, tested for ".csv"
    isProject: bool)

  type Component = string

  /** A form definition as `srcForm.load()` delivers it. */
  datatype SourceForm = SourceForm(
    title: string, path: string, name: string, components: seq<Component>,
    otherFields: map<string, string>)

  /** The results of the requests made while migrating one form. */
  datatype FormIO = FormIO(
    destinationExists: bool,            // destForm.load() resolves
    sourceForm: Option<SourceForm>,     // srcForm.load(): None when it rejects
    createError: Option<Fault>,         // the transport error of the create request
    queryThrows: bool,                  // request() of the submissions throws when called
    records: seq<RecordOutcome>)        // the source records and what each one meets

  datatype Field = TextField(text: string) | ComponentsField(items: seq<Component>)

  datatype CreateRequest = CreateRequest(url: string, headers: map<string, string>, body: map<string, Field>)

  datatype DataSource =
    | CsvFile(path: string)
    | RemoteQuery(url: string, limit: string, headers: map<string, string>)

  datatype DataRun = DataRun(source: DataSource, parallel: nat, stream: StreamRun)

  /** How a migration ends for its caller: `done` called with or without an error,
      `done` never called, or an exception thrown out of a callback. */
  datatype Completion = Done(err: Option<Fault>) | Silent | Crashed

  datatype FormRun = FormRun(
    completion: Completion,
    destinationLoaded: bool,            // destForm.load() was issued
    creates: seq<CreateRequest>,
    data: Option<DataRun>)

  datatype Transformer = BuiltinForm | Module(path: string)

  /** The configuration checks, in the script's order; the first one that fails
      gives the message `done` is called with. */
  function Preflight(src: Arg, dest: Arg, transformer: Arg, hasServer: bool): (failure: Option<string>)
    ensures failure.None? <==> Truthy(src) && Truthy(transformer) && Truthy(dest) && hasServer
    ensures !Truthy(src) ==> failure == Some(NO_SOURCE_MESSAGE)
    ensures Truthy(src) && !Truthy(transformer) ==> failure == Some(NO_TRANSFORMER_MESSAGE)
    ensures Truthy(src) && Truthy(transformer) && !Truthy(dest) ==> failure == Some(NO_DESTINATION_MESSAGE)
    ensures Truthy(src) && Truthy(transformer) && Truthy(dest) && !hasServer ==> failure == Some(NO_SERVER_MESSAGE)
  {
    if !Truthy(src) then Some(NO_SOURCE_MESSAGE)
    else if !Truthy(transformer) then Some(NO_TRANSFORMER_MESSAGE)
    else if !Truthy(dest) then Some(NO_DESTINATION_MESSAGE)
    else if !hasServer then Some(NO_SERVER_MESSAGE)
    else None
  }

  function ModulePath(cwd: string, name: string): string {
    cwd + "/" + name
  }

  /** "form" names the built-in transformer; any other name is a module loaded
      from the working directory, and None means that loading it threw. */
  function SelectTransformer(name: string, cwd: string, loadable: set<string>): (t: Option<Transformer>)
    ensures name == Invocation.FORM_TRANSFORMER ==> t == Some(BuiltinForm)
    ensures name != Invocation.FORM_TRANSFORMER ==> (t.Some? <==> ModulePath(cwd, name) in loadable)
    ensures name != Invocation.FORM_TRANSFORMER && t.Some? ==> t.value == Module(ModulePath(cwd, name))
  {
    if name == Invocation.FORM_TRANSFORMER then Some(BuiltinForm)
    else if ModulePath(cwd, name) in loadable then Some(Module(ModulePath(cwd, name)))
    else None
  }

  predicate OccursAt(s: string, pat: string, j: nat) {
    j + |pat| <= |s| && s[j..j + |pat|] == pat
  }

  predicate FirstOccurrence(s: string, pat: string, k: nat) {
    OccursAt(s, pat, k) && forall j :: 0 <= j < k ==> !OccursAt(s, pat, j)
  }

  /** The first position at or after `from` where `pat` occurs in `s`. */
  function IndexFrom(s: string, pat: string, from: nat): (r: Option<nat>)
    requires from <= |s|
    ensures r.Some? ==> from <= r.value && OccursAt(s, pat, r.value)
    ensures r.Some? ==> forall j :: from <= j < r.value ==> !OccursAt(s, pat, j)
    ensures r.None? ==> forall j :: from <= j <= |s| ==> !OccursAt(s, pat, j)
    decreases |s| - from
  {
    if OccursAt(s, pat, from) then Some(from)
    else if from == |s| then None
    else IndexFrom(s, pat, from + 1)
  }

  /** `dest.replace("/" + path, "")`: a string pattern, so only its first
      occurrence is removed, and the location is unchanged when there is none. */
  function DestProject(dest: string, path: string): (project: string)
    ensures (forall j :: 0 <= j <= |dest| ==> !OccursAt(dest, "/" + path, j)) ==> project == dest
    ensures forall k: nat :: FirstOccurrence(dest, "/" + path, k) ==> project == dest[..k] + dest[k + |path| + 1..]
  {
    var pat := "/" + path;
    match IndexFrom(dest, pat, 0)
    case None => dest
    case Some(k) =>
      dest[..k] + dest[k + |pat|..]
  }

  /** For `project + "/" + path`, the location a project migration builds, the
      project comes back as long as the pattern does not also start earlier. */
  lemma DestProjectOfJoined(project: string, path: string)
    requires forall j :: 0 <= j < |project| ==> !OccursAt(project + "/" + path, "/" + path, j)
    ensures DestProject(project + "/" + path, path) == project
  {
    var s, pat := project + "/" + path, "/" + path;
    assert s[|project|..|project| + |pat|] == pat;
    assert FirstOccurrence(s, pat, |project|);
    assert s[..|project|] == project;
    assert s[|project| + |pat|..] == [];
  }

  /** An earlier segment that starts with "/" + path is the one removed: the form
      "b" at "https://x/bb/b" is created under "https://xb/b", not "https://x/bb". */
  lemma DestProjectStripsFirstMatch()
    ensures DestProject("https://x/bb/b", "b") == "https://xb/b"
  {
    var s, pat := "https://x/bb/b", "/b";
    assert "/" + "b" == pat;
    assert OccursAt(s, pat, 9) by { assert s[9..11] == pat; }
    forall j | 0 <= j < 9 ensures !OccursAt(s, pat, j) {
      assert s[j] != '/' || s[j + 1] != 'b';
      assert s[j..j + 2][0] == s[j] && s[j..j + 2][1] == s[j + 1];
    }
    assert FirstOccurrence(s, pat, 9);
    assert s[..9] + s[11..] == "https://xb/b";
  }

  /** The body of the create request: the four schema fields of the source form,
      and nothing else. */
  function CreateBody(form: SourceForm): (body: map<string, Field>)
    ensures body.Keys == {"title", "path", "name", "components"}
    ensures body["title"] == TextField(form.title) && body["path"] == TextField(form.path)
    ensures body["name"] == TextField(form.name) && body["components"] == ComponentsField(form.components)
  {
    map["title" := TextField(form.title), "path" := TextField(form.path),
        "name" := TextField(form.name), "components" := ComponentsField(form.components)]
  }

  /** `src.substr(-4) === '.csv'`. */
  predicate IsCsvName(s: string) {
    |s| >= 4 && s[|s| - 4..] == ".csv"
  }

  /** The record stream of migrateData; None when the stream stays null, because
      neither branch applies or because the submission request threw (the throw
      is caught and only logged). The CSV test looks at the command's `src`, while
      the file read is the form's own source location. */
  function StreamSource(s: Session, formSrc: string, queryThrows: bool): (source: Option<DataSource>)
    ensures source.None? <==> !IsCsvName(s.outerSrc) && (!s.hasSourceClient || queryThrows)
    ensures IsCsvName(s.outerSrc) ==> source == Some(CsvFile(ModulePath(s.cwd, formSrc)))
    ensures !IsCsvName(s.outerSrc) && s.hasSourceClient && !queryThrows ==>
      source == Some(RemoteQuery(formSrc + "/submission", SUBMISSION_LIMIT, s.srcHeaders))
  {
    if IsCsvName(s.outerSrc) then Some(CsvFile(ModulePath(s.cwd, formSrc)))
    else if s.hasSourceClient && !queryThrows then Some(RemoteQuery(formSrc + "/submission", SUBMISSION_LIMIT, s.srcHeaders))
    else None
  }

  /** migrateData: None when `stream.pipe` is called on a null stream and throws. */
  function MigrateData(s: Session, formSrc: string, io: FormIO): Option<DataRun> {
    match StreamSource(s, formSrc, io.queryThrows)
    case None => None
    case Some(source) => Some(DataRun(source, Parallelism(s.isProject), Pipeline(io.records)))
  }

  /** The stream's 'finish' calls `done()`, its 'error' calls `done(err)`; a
      stalled stream emits neither. */
  function StreamCompletion(run: StreamRun): (c: Completion)
    ensures c == Done(None) <==> run.end.Finished?
    ensures run.end.Errored? ==> c == Done(Some(run.end.err))
    ensures c.Silent? <==> run.end.Stalled?
    ensures !c.Crashed?
  {
    match run.end
    case Finished => Done(None)
    case Errored(_, e) => Done(Some(e))
    case Stalled(_) => Silent
  }

  /** The `.catch` of the destination load: load the source form, create the
      destination under its project, then migrate the data. */
  function CreateMissing(s: Session, formSrc: string, dest: string, io: FormIO): (run: FormRun)
    ensures run.destinationLoaded
    ensures io.sourceForm.None? ==> run == FormRun(Silent, true, [], None)
    ensures io.sourceForm.Some? ==>
      run.creates == [CreateRequest(DestProject(dest, io.sourceForm.value.path) + "/form", s.destHeaders,
                                    CreateBody(io.sourceForm.value))]
    ensures io.sourceForm.Some? && io.createError.Some? ==> run.completion == Done(io.createError) && run.data.None?
    ensures run.data.Some? <==> io.sourceForm.Some? && io.createError.None? && StreamSource(s, formSrc, io.queryThrows).Some?
    ensures io.sourceForm.Some? && io.createError.None? && StreamSource(s, formSrc, io.queryThrows).None? ==> run.completion == Crashed
    ensures run.data.Some? ==> run.completion == StreamCompletion(run.data.value.stream)
  {
    match io.sourceForm
    case None => FormRun(Silent, true, [], None)
    case Some(form) =>
      var request := CreateRequest(DestProject(dest, form.path) + "/form", s.destHeaders, CreateBody(form));
      if io.createError.Some? then FormRun(Done(io.createError), true, [request], None)
      else
        match MigrateData(s, formSrc, io)
        case None => FormRun(Crashed, true, [request], None)
        case Some(data) => FormRun(StreamCompletion(data.stream), true, [request], Some(data))
  }

  predicate Ready(s: Session, src: Arg, dest: Arg, transformer: Arg) {
    Preflight(src, dest, transformer, s.hasServer).None?
    && SelectTransformer(transformer.s, s.cwd, s.loadableModules).Some?
  }

  /** migrateForm(_src, _dest, _transformer, done). When the destination load
      succeeds but migrateData throws, the rejection reaches the same `.catch` as
      a missing destination. */
  function MigrateForm(s: Session, src: Arg, dest: Arg, transformer: Arg, io: FormIO): (run: FormRun)
    ensures |run.creates| <= 1
    ensures run.data.Some? ==> run.destinationLoaded && run.data.value.stream == Pipeline(io.records)
    ensures run.data.Some? ==> run.data.value.parallel == Parallelism(s.isProject)
    ensures run.completion == Done(None) ==> run.data.Some? && run.data.value.stream.end == Finished
  {
    match Preflight(src, dest, transformer, s.hasServer)
    case Some(message) => FormRun(Done(Some(Message(message))), false, [], None)
    case None =>
      if SelectTransformer(transformer.s, s.cwd, s.loadableModules).None? then FormRun(Silent, false, [], None)
      else
        var data := MigrateData(s, src.s, io);
        if io.destinationExists && data.Some? then FormRun(StreamCompletion(data.value.stream), true, [], data)
        else CreateMissing(s, src.s, dest.s, io)
  }

  /** A failed check reports its message and makes no request at all. */
  lemma PreflightFailureMakesNoRequest(s: Session, src: Arg, dest: Arg, transformer: Arg, io: FormIO)
    requires Preflight(src, dest, transformer, s.hasServer).Some?
    ensures var run := MigrateForm(s, src, dest, transformer, io);
      run == FormRun(Done(Some(Message(Preflight(src, dest, transformer, s.hasServer).value))), false, [], None)
  {
  }

  /** A transformer module that fails to load ends the migration without calling
      `done` and before any request. */
  lemma FailedModuleLoadIsSilent(s: Session, src: Arg, dest: Arg, transformer: Arg, io: FormIO)
    requires Preflight(src, dest, transformer, s.hasServer).None?
    requires transformer.s != Invocation.FORM_TRANSFORMER && ModulePath(s.cwd, transformer.s) !in s.loadableModules
    ensures MigrateForm(s, src, dest, transformer, io) == FormRun(Silent, false, [], None)
  {
  }

  /** An existing destination gets the data straight away and no create request. */
  lemma ExistingDestinationIsNotCreated(s: Session, src: Arg, dest: Arg, transformer: Arg, io: FormIO)
    requires Ready(s, src, dest, transformer) && io.destinationExists
    requires StreamSource(s, src.s, io.queryThrows).Some?
    ensures var run := MigrateForm(s, src, dest, transformer, io);
      && run.creates == []
      && run.data == Some(DataRun(StreamSource(s, src.s, io.queryThrows).value, Parallelism(s.isProject), Pipeline(io.records)))
      && run.completion == StreamCompletion(Pipeline(io.records))
  {
  }

  /** A missing destination gets exactly one create request, posted to the
      destination's project with the source form's schema; a transport error on it
      ends the migration with that error and no data, any response leads on to
      the data whatever its status. */
  lemma MissingDestinationIsCreated(s: Session, src: Arg, dest: Arg, transformer: Arg, io: FormIO)
    requires Ready(s, src, dest, transformer) && !io.destinationExists && io.sourceForm.Some?
    ensures var run := MigrateForm(s, src, dest, transformer, io);
      var form := io.sourceForm.value;
      && run.creates == [CreateRequest(DestProject(dest.s, form.path) + "/form", s.destHeaders, CreateBody(form))]
      && (io.createError.Some? ==> run.completion == Done(io.createError) && run.data.None?)
      && (io.createError.None? && StreamSource(s, src.s, io.queryThrows).Some? ==>
            run.data == Some(DataRun(StreamSource(s, src.s, io.queryThrows).value, Parallelism(s.isProject), Pipeline(io.records)))
            && run.completion == StreamCompletion(Pipeline(io.records)))
  {
  }

  /** When neither destination nor source form loads, `done` is never called. */
  lemma UnloadableSourceFormIsSilent(s: Session, src: Arg, dest: Arg, transformer: Arg, io: FormIO)
    requires Ready(s, src, dest, transformer) && !io.destinationExists && io.sourceForm.None?
    ensures MigrateForm(s, src, dest, transformer, io) == FormRun(Silent, true, [], None)
  {
  }

  /** A non-CSV source without a source client, or whose submission request
      throws, leaves the stream null: even an existing destination is sent a
      create request, and the second attempt to stream throws out of the request
      callback. */
  lemma NullStreamRecreatesDestination(s: Session, src: Arg, dest: Arg, transformer: Arg, io: FormIO)
    requires Ready(s, src, dest, transformer) && io.destinationExists
    requires !IsCsvName(s.outerSrc) && (!s.hasSourceClient || io.queryThrows)
    requires io.sourceForm.Some? && io.createError.None?
    ensures var run := MigrateForm(s, src, dest, transformer, io);
      |run.creates| == 1 && run.completion == Crashed && run.data.None?
  {
  }

  /** The CSV test is made on the command's source, not the form's: when that one
      ends in ".csv", the form's data is read from a file whatever its location. */
  lemma CsvDetectionUsesCommandSource(s: Session, src: Arg, dest: Arg, transformer: Arg, io: FormIO)
    requires Ready(s, src, dest, transformer) && io.destinationExists
    requires IsCsvName(s.outerSrc)
    ensures MigrateForm(s, src, dest, transformer, io).data.value.source == CsvFile(s.cwd + "/" + src.s)
  {
  }
}
