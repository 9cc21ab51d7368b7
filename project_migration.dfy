/** Migrating a whole project: list the source project's forms, then migrate them
    one after another in listing order, stopping at the first failure. Also the
    command's entry point, which picks single-form or project mode. */
module ProjectMigration {
  import opened JsValues
  import opened Records
  import opened FormMigration
  import opened Headers
  import opened Invocation

  const NO_FORMS_MESSAGE := "No forms were found within the source project."
  const FORM_LIST_LIMIT := "10000000"
  const FORM_LIST_SELECT := "_id,path,title"

  /** One entry of the form listing, with the results its migration meets. */
  datatype ListedForm = ListedForm(path: string, io: FormIO)

  /** The listing request's result: a transport error, or a body that is absent
      (or has no length) or is an array of forms. */
  datatype Listing = ListingError(err: Fault) | ListingBody(forms: Option<seq<ListedForm>>)

  datatype ListRequest = ListRequest(url: string, limit: string, select: string, headers: map<string, string>)

  /** One call of migrateForm made by the project loop. */
  datatype Job = Job(src: string, dest: string, run: FormRun)

  datatype SeriesRun = SeriesRun(jobs: seq<Job>, end: Completion)

  datatype ProjectRun = ProjectRun(request: ListRequest, jobs: seq<Job>, completion: Completion)

  /** The migration of one listed form: `${src}/${form.path}` to `${dest}/${form.path}`. */
  function FormJob(s: Session, dest: Arg, transformer: Arg, form: ListedForm): Job {
    var formSrc := s.outerSrc + "/" + form.path;
    var formDest := Interpolate(dest) + "/" + form.path;
    Job(formSrc, formDest, MigrateForm(s, Defined(formSrc), Defined(formDest), transformer, form.io))
  }

  /** The iteratee handed to `async.eachSeries`: migrate one listed form. */
  function Iteratee(s: Session, dest: Arg, transformer: Arg): ListedForm -> Job {
    form => FormJob(s, dest, transformer, form)
  }

  /** `async.eachSeries` over the listed forms: each one is started only when the
      previous one called back without an error. */
  function Series(iteratee: ListedForm -> Job, forms: seq<ListedForm>): (r: SeriesRun)
    ensures |r.jobs| <= |forms|
    ensures r.end == Done(None) ==> |r.jobs| == |forms|
  {
    if forms == [] then SeriesRun([], Done(None))
    else
      var job := iteratee(forms[0]);
      if job.run.completion != Done(None) then SeriesRun([job], job.run.completion)
      else
        var rest := Series(iteratee, forms[1..]);
        SeriesRun([job] + rest.jobs, rest.end)
  }

  /** The series starts the listed forms in listing order, from the first one,
      and never more forms than were listed. */
  lemma {:induction false} SeriesInListingOrder(iteratee: ListedForm -> Job, forms: seq<ListedForm>)
    ensures var r := Series(iteratee, forms);
      && |r.jobs| <= |forms| && (forms != [] ==> r.jobs != [])
      && forall i :: 0 <= i < |r.jobs| ==> r.jobs[i] == iteratee(forms[i])
  {
    if forms != [] && iteratee(forms[0]).run.completion == Done(None) {
      SeriesInListingOrder(iteratee, forms[1..]);
      var r, rest := Series(iteratee, forms), Series(iteratee, forms[1..]);
      forall i | 0 < i < |r.jobs| ensures r.jobs[i] == rest.jobs[i - 1] && forms[i] == forms[1..][i - 1] {
      }
    }
  }

  /** Each form is started only after all before it succeeded; the series
      succeeds exactly when every listed form did, and otherwise ends with the
      failure of the last form it started. */
  lemma {:induction false} SeriesStopsAtFirstFailure(iteratee: ListedForm -> Job, forms: seq<ListedForm>)
    ensures var r := Series(iteratee, forms);
      && (forall i :: 0 <= i < |r.jobs| - 1 ==> r.jobs[i].run.completion == Done(None))
      && (r.end == Done(None) <==>
            |r.jobs| == |forms| && forall i :: 0 <= i < |forms| ==> r.jobs[i].run.completion == Done(None))
      && (r.end != Done(None) ==> r.jobs != [] && r.end == r.jobs[|r.jobs| - 1].run.completion)
  {
    if forms != [] && iteratee(forms[0]).run.completion == Done(None) {
      SeriesStopsAtFirstFailure(iteratee, forms[1..]);
      SeriesInListingOrder(iteratee, forms[1..]);
      var r, rest := Series(iteratee, forms), Series(iteratee, forms[1..]);
      assert r.jobs == [r.jobs[0]] + rest.jobs;
      forall i | 0 < i < |r.jobs| ensures r.jobs[i] == rest.jobs[i - 1] {
      }
      if |r.jobs| == |forms| && forall i :: 0 <= i < |forms| ==> r.jobs[i].run.completion == Done(None) {
        forall i | 0 <= i < |forms| - 1 ensures rest.jobs[i].run.completion == Done(None) {
          assert rest.jobs[i] == r.jobs[i + 1];
        }
      }
    } else if forms != [] {
      var r := Series(iteratee, forms);
      assert r.jobs == [iteratee(forms[0])] && r.jobs[0].run.completion != Done(None);
    }
  }

  /** One step of the series: the form at position i, then the rest. */
  lemma SeriesStep(iteratee: ListedForm -> Job, forms: seq<ListedForm>, i: nat)
    requires i < |forms|
    ensures var job := iteratee(forms[i]);
      Series(iteratee, forms[i..])
        == if job.run.completion != Done(None) then SeriesRun([job], job.run.completion)
           else SeriesRun([job] + Series(iteratee, forms[i + 1..]).jobs,
                          Series(iteratee, forms[i + 1..]).end)
  {
  }

  /** The final callback passes `err.message || err` on. */
  function ProjectCompletion(c: Completion): Completion {
    if c.Done? && c.err.Some? then Done(Some(Reported(c.err.value))) else c
  }

  /** The project migration: list the source project's forms, then migrate them
      in series. Forms are started only for a listing that has some, and success
      is reported only once every listed form was started. */
  function Project(s: Session, dest: Arg, transformer: Arg, listing: Listing): (run: ProjectRun)
    ensures run.request == ListRequest(s.outerSrc + "/form", FORM_LIST_LIMIT, FORM_LIST_SELECT, s.srcHeaders)
    ensures run.jobs != [] ==> listing.ListingBody? && listing.forms.Some? && |run.jobs| <= |listing.forms.value|
    ensures run.completion == Done(None) ==>
      listing.ListingBody? && listing.forms.Some? && run.jobs != [] && |run.jobs| == |listing.forms.value|
  {
    var request := ListRequest(s.outerSrc + "/form", FORM_LIST_LIMIT, FORM_LIST_SELECT, s.srcHeaders);
    match listing
    case ListingError(e) => ProjectRun(request, [], Done(Some(Reported(e))))
    case ListingBody(body) =>
      if body.None? || body.value == [] then ProjectRun(request, [], Done(Some(Message(NO_FORMS_MESSAGE))))
      else
        var series := Series(Iteratee(s, dest, transformer), body.value);
        ProjectRun(request, series.jobs, ProjectCompletion(series.end))
  }

  /** `async.eachSeries` as a loop: one form at a time, leaving the loop at the
      first form that does not call back without an error. */
  method RunSeries(iteratee: ListedForm -> Job, forms: seq<ListedForm>) returns (r: SeriesRun)
    ensures r == Series(iteratee, forms)
  {
    var jobs: seq<Job> := [];
    var i := 0;
    assert forms[0..] == forms;
    while i < |forms|
      invariant i <= |forms|
      invariant Series(iteratee, forms)
             == SeriesRun(jobs + Series(iteratee, forms[i..]).jobs, Series(iteratee, forms[i..]).end)
    {
      SeriesStep(iteratee, forms, i);
      var job := iteratee(forms[i]);
      if job.run.completion != Done(None) {
        return SeriesRun(jobs + [job], job.run.completion);
      }
      var rest := Series(iteratee, forms[i + 1..]);
      assert jobs + ([job] + rest.jobs) == (jobs + [job]) + rest.jobs;
      jobs := jobs + [job];
      i := i + 1;
    }
    assert forms[i..] == [];
    return SeriesRun(jobs, Done(None));
  }

  /** The project migration as the script runs it: the listing's error cases,
      then the series over the listed forms. */
  method RunProject(s: Session, dest: Arg, transformer: Arg, listing: Listing) returns (run: ProjectRun)
    ensures run == Project(s, dest, transformer, listing)
    ensures listing.ListingError? ==> run.jobs == [] && run.completion == Done(Some(Reported(listing.err)))
    ensures listing.ListingBody? && (listing.forms.None? || listing.forms.value == []) ==>
      run.jobs == [] && run.completion == Done(Some(Message(NO_FORMS_MESSAGE)))
  {
    var request := ListRequest(s.outerSrc + "/form", FORM_LIST_LIMIT, FORM_LIST_SELECT, s.srcHeaders);
    match listing {
      case ListingError(e) =>
        return ProjectRun(request, [], Done(Some(Reported(e))));
      case ListingBody(body) =>
        if body.None? || body.value == [] {
          return ProjectRun(request, [], Done(Some(Message(NO_FORMS_MESSAGE))));
        }
        var series := RunSeries(Iteratee(s, dest, transformer), body.value);
        return ProjectRun(request, series.jobs, ProjectCompletion(series.end));
    }
  }

  /** Forms are migrated in listing order from `src/<path>` to `dest/<path>`, each
      by the one-form migration with the same transformer. */
  lemma ProjectMigratesInListingOrder(s: Session, dest: Arg, transformer: Arg, forms: seq<ListedForm>)
    requires forms != []
    ensures var run := Project(s, dest, transformer, ListingBody(Some(forms)));
      && 0 < |run.jobs| <= |forms|
      && forall i :: 0 <= i < |run.jobs| ==>
           run.jobs[i].src == s.outerSrc + "/" + forms[i].path
           && run.jobs[i].dest == Interpolate(dest) + "/" + forms[i].path
           && run.jobs[i].run == MigrateForm(s, Defined(run.jobs[i].src), Defined(run.jobs[i].dest), transformer, forms[i].io)
  {
    var it := Iteratee(s, dest, transformer);
    SeriesInListingOrder(it, forms);
    var run := Project(s, dest, transformer, ListingBody(Some(forms)));
    assert run.jobs == Series(it, forms).jobs;
    forall i | 0 <= i < |run.jobs| ensures run.jobs[i] == FormJob(s, dest, transformer, forms[i]) {
      assert run.jobs[i] == it(forms[i]);
    }
  }

  /** A non-empty listing runs the series over its forms. */
  lemma ProjectOfListing(s: Session, dest: Arg, transformer: Arg, forms: seq<ListedForm>)
    requires forms != []
    ensures var series := Series(Iteratee(s, dest, transformer), forms);
      Project(s, dest, transformer, ListingBody(Some(forms)))
        == ProjectRun(ListRequest(s.outerSrc + "/form", FORM_LIST_LIMIT, FORM_LIST_SELECT, s.srcHeaders),
                      series.jobs, ProjectCompletion(series.end))
  {
  }

  /** Every form before the last one started succeeded; success is reported only
      when all of them did, and otherwise the last started form's failure is
      reported as `err.message || err`. */
  lemma ProjectStopsAtFirstFailure(s: Session, dest: Arg, transformer: Arg, forms: seq<ListedForm>)
    requires forms != []
    ensures var run := Project(s, dest, transformer, ListingBody(Some(forms)));
      && (forall i :: 0 <= i < |run.jobs| - 1 ==> run.jobs[i].run.completion == Done(None))
      && (|run.jobs| < |forms| ==> run.jobs[|run.jobs| - 1].run.completion != Done(None))
      && (run.completion == Done(None) <==>
            |run.jobs| == |forms| && forall i :: 0 <= i < |forms| ==> run.jobs[i].run.completion == Done(None))
      && (run.completion != Done(None) ==> run.completion == ProjectCompletion(run.jobs[|run.jobs| - 1].run.completion))
  {
    var it := Iteratee(s, dest, transformer);
    SeriesStopsAtFirstFailure(it, forms);
    var series := Series(it, forms);
    ProjectOfListing(s, dest, transformer, forms);
    assert ProjectCompletion(series.end) == Done(None) <==> series.end == Done(None);
    if |series.jobs| < |forms| {
      assert series.end != Done(None);
    }
  }

  /** In project mode every form's records are submitted one at a time. */
  lemma ProjectJobsSubmitOneAtATime(s: Session, dest: Arg, forms: seq<ListedForm>)
    requires s.isProject
    ensures var run := Project(s, dest, Defined(FORM_TRANSFORMER), ListingBody(Some(forms)));
      forall i :: 0 <= i < |run.jobs| && run.jobs[i].run.data.Some? ==> run.jobs[i].run.data.value.parallel == 1
  {
    SeriesInListingOrder(Iteratee(s, dest, Defined(FORM_TRANSFORMER)), forms);
  }

  datatype Options = Options(
    formio: bool,
    srcFormio: Option<Credentials>,
    dstFormio: Option<Credentials>,
    cwd: string,
    loadableModules: set<string>)

  datatype Outcome = SingleForm(form: FormRun) | WholeProject(project: ProjectRun)

  datatype CommandRun = CommandRun(
    isProject: bool, src: Arg, transformer: Arg, dest: Arg,
    srcHeaders: map<string, string>, destHeaders: map<string, string>,
    outcome: Outcome)

  function SessionOf(options: Options, r: CommandRun): Session {
    Session(options.formio, options.srcFormio.Some?, options.cwd, options.loadableModules,
            r.srcHeaders, r.destHeaders, Interpolate(r.src), r.isProject)
  }

  /** The exported function: parse the parameters, build both sides' headers,
      then migrate the one form or the whole project. `single` holds the results
      met by a single-form migration, `listing` those of a project migration. */
  method Migrate(options: Options, params: seq<string>, single: FormIO, listing: Listing) returns (r: CommandRun)
    ensures Parses(params, r.isProject, r.src, r.transformer, r.dest)
    ensures HeadersFor(options.srcFormio, r.srcHeaders) && HeadersFor(options.dstFormio, r.destHeaders)
    ensures !r.isProject ==>
      r.outcome == SingleForm(MigrateForm(SessionOf(options, r), r.src, r.dest, r.transformer, single))
    ensures r.isProject ==>
      r.outcome == WholeProject(Project(SessionOf(options, r), r.dest, r.transformer, listing))
  {
    var isProject, src, transformer, dest := ParseParams(params);
    var srcHeaders := BuildHeaders(options.srcFormio);
    var destHeaders := BuildHeaders(options.dstFormio);
    r := CommandRun(isProject, src, transformer, dest, srcHeaders, destHeaders, SingleForm(FormRun(Silent, false, [], None)));
    var s := SessionOf(options, r);
    if !isProject {
      r := r.(outcome := SingleForm(MigrateForm(s, src, dest, transformer, single)));
      return;
    }
    var project := RunProject(s, dest, transformer, listing);
    r := r.(outcome := WholeProject(project));
  }
}
