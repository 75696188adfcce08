/** `generateAndStoreConversationReport`: the sequence of database writes
    that turns one finished conversation into a stored report, a summary,
    a PDF file and a completed summary run. The database tables are the
    fields of `ReportDatabase`; every outside call whose error the code
    checks may fail, and which of them do is an input (`World.failing`). */
module ReportPipeline {
  import opened Wrappers
  import opened Text
  import opened Json
  import opened ConversationReport
  import opened ReportLayout

  /** The fallible calls of one report generation, in the order they are made. */
  datatype Step =
    | UpsertTarget | CreateRun
    | RequestSummary | EnsureTemplate | ClearLatest | InsertSummary | UpsertReport
    | UploadPdf | InsertPdfRow | MarkPdfGenerated | CompleteRun | LinkLatestRun

  /** The calls inside the `try` block, which runs once the summary run row exists. */
  const TrySteps: seq<Step> :=
    [RequestSummary, EnsureTemplate, ClearLatest, InsertSummary, UpsertReport,
     UploadPdf, InsertPdfRow, MarkPdfGenerated, CompleteRun, LinkLatestRun]

  /** Why a call threw. */
  datatype Failure =
    | ConversationNotFound
    | NoPersonId
    | TranscriptLoadFailed
    | NoTranscript
    | StepFailed(step: Step)

  datatype RunStatus = Processing | Completed | Failed
  datatype ReportStatus = Final | PdfGenerated

  /** `summary_targets` is unique on (tenant "default", person, "conversation", conversation). */
  datatype TargetKey = TargetKey(personId: string, conversationId: string)
  datatype Target = Target(latestCompletedRunId: Option<nat>)
  /** A `summary_runs` row; its id is its index in `runs`. */
  datatype Run = Run(target: TargetKey, status: RunStatus, inputHash: string, error: Option<Failure>)
  datatype Summary = Summary(target: TargetKey, runId: nat, isLatest: bool, inputHash: string,
                             text: string, payload: ReportPayload)
  /** `conversation_reports` is unique on (tenant, person, "conversation", conversation, template). */
  datatype ReportKey = ReportKey(personId: string, conversationId: string, templateId: string)
  datatype Report = Report(runId: nat, date: string, status: ReportStatus, text: string, payload: ReportPayload)
  datatype PdfRow = PdfRow(report: ReportKey, path: string)

  /** The tables this operation reads and writes, and the storage bucket. */
  datatype Store = Store(
    targets: map<TargetKey, Target>,
    runs: seq<Run>,
    templates: set<string>,
    summaries: seq<Summary>,
    reports: map<ReportKey, Report>,
    pdfs: seq<PdfRow>,
    files: map<string, seq<Draw>>)

  /** The `conversations` row, as loaded. */
  datatype Conversation = Conversation(personId: Option<Json>, startedAt: Option<Json>, endedAt: Option<Json>)

  /** Everything outside the tables: what the queries return, which calls
      fail, the reply of the language model (`None` when the API key is
      missing, the request fails, or the reply is empty or not JSON), and the
      hash, date formatting, template id and clock the code obtains elsewhere. */
  datatype World = World(
    conversation: Option<Conversation>,
    messages: Option<seq<MessageRow>>,
    person: Option<Json>,
    employment: Option<Json>,
    reply: Option<Json>,
    failing: set<Step>,
    markFailedOk: bool,
    sha256: string -> string,
    formatGermanDate: string -> string,
    templateId: string,
    timestamp: string)

  /** What the checks before the first write produce. */
  datatype Job = Job(personId: string, transcript: string, date: string)

  /** `String(person_id || "").trim()`. */
  function PersonIdOf(c: Conversation): string {
    Trim(if Truthy(c.personId) then ToJsString(c.personId.value) else "")
  }

  /** `String(ended_at || started_at || "")`. */
  function DateSource(c: Conversation): string {
    if Truthy(c.endedAt) then ToJsString(c.endedAt.value)
    else if Truthy(c.startedAt) then ToJsString(c.startedAt.value)
    else ""
  }

  /** The checks that throw before anything is written, in source order. */
  function Prepare(w: World): Result<Job, Failure>
  {
    if w.conversation.None? then Err(ConversationNotFound)
    else if PersonIdOf(w.conversation.value) == "" then Err(NoPersonId)
    else if w.messages.None? then Err(TranscriptLoadFailed)
    else if w.messages.value == [] then Err(NoTranscript)
    else
      var personId := PersonIdOf(w.conversation.value);
      Ok(Job(personId, TranscriptToText(w.messages.value),
             w.formatGermanDate(DateSource(w.conversation.value))))
  }

  /** The values the `try` block works with. */
  datatype Ctx = Ctx(
    target: TargetKey, runId: nat, reportKey: ReportKey, path: string, inputHash: string,
    reportDate: string, payload: ReportPayload, text: string, pdf: seq<Draw>,
    reply: Option<Json>, failing: set<Step>)

  /** What `requestOpenAiReport` returns: the reply sanitised against the
      participant profile; only consulted once the request has succeeded. */
  function PayloadOf(w: World, job: Job): ReportPayload {
    var profile := ResolveParticipantProfile(job.personId, w.person, w.employment);
    match w.reply
    case Some(parsed) => SanitizeReportPayload(parsed, profile, job.date)
    case None => BuildDefaultReport(profile, job.date)
  }

  /** `default/<person>/conversation/<conversation>/<timestamp>.pdf`. */
  function StoragePath(personId: string, conversationId: string, timestamp: string): string {
    "default/" + personId + "/conversation/" + conversationId + "/" + timestamp + ".pdf"
  }

  /** The values the stored rows and the PDF are made of. */
  function MakeCtx(conversationId: string, job: Job, payload: ReportPayload, runId: nat, w: World): Ctx
  {
    var text := BuildReportText(payload);
    Ctx(TargetKey(job.personId, conversationId), runId,
        ReportKey(job.personId, conversationId, w.templateId),
        StoragePath(job.personId, conversationId, w.timestamp),
        w.sha256(job.transcript), ReshapeDate(job.date), payload, text, ReportDraws(text),
        w.reply, w.failing)
  }

  /** What the rows written by the `try` block carry: the target and
      report keys of the participant and conversation, the storage path
      with the timestamp, the `gespraechsdatum` reshaped from the German
      date, the report text of the payload, and a PDF that draws exactly the
      wrapped non-blank lines of that text; for a payload without line
      breaks, those are the 33 report lines in order. */
  lemma MakeCtxContents(conversationId: string, job: Job, payload: ReportPayload, runId: nat, w: World)
    ensures var ctx := MakeCtx(conversationId, job, payload, runId, w);
      && ctx.target == TargetKey(job.personId, conversationId)
      && ctx.reportKey == ReportKey(job.personId, conversationId, w.templateId)
      && ctx.path == StoragePath(job.personId, conversationId, w.timestamp)
      && ctx.reportDate == ReshapeDate(job.date)
      && ctx.runId == runId && ctx.payload == payload
      && ctx.text == BuildReportText(payload)
      && Texts(ctx.pdf) == DrawnTexts(Split(ctx.text, '\n'))
      && (NoNewline(payload) ==> Texts(ctx.pdf) == DrawnTexts(ReportLines(payload)))
  {
    var text := BuildReportText(payload);
    LayoutTexts(Split(text, '\n'));
    if NoNewline(payload) {
      ReportTextLayout(payload);
    }
  }

  /** Whether a `try` step throws. The `is_latest` reset never does: its error is ignored. */
  predicate Fails(step: Step, ctx: Ctx) {
    match step
    case RequestSummary => ctx.reply.None?
    case ClearLatest => false
    case _ => step in ctx.failing
  }

  /** `update summaries set is_latest = false where target_id = t and is_latest`. */
  function ClearLatestOf(xs: seq<Summary>, t: TargetKey): (r: seq<Summary>)
    ensures |r| == |xs|
    ensures forall i :: 0 <= i < |xs| ==>
      r[i].target == xs[i].target && (r[i].isLatest <==> xs[i].isLatest && xs[i].target != t)
    ensures forall i :: 0 <= i < |xs| ==> r[i] == xs[i].(isLatest := r[i].isLatest)
  {
    seq(|xs|, i requires 0 <= i < |xs| =>
      if xs[i].target == t && xs[i].isLatest then xs[i].(isLatest := false) else xs[i])
  }

  /** The summaries once the reset has run; unchanged when it failed. */
  function Cleared(xs: seq<Summary>, ctx: Ctx): seq<Summary> {
    if ClearLatest in ctx.failing then xs else ClearLatestOf(xs, ctx.target)
  }

  function NewSummary(ctx: Ctx): Summary {
    Summary(ctx.target, ctx.runId, true, ctx.inputHash, ctx.text, ctx.payload)
  }

  /** The upserted report row. */
  function NewReport(ctx: Ctx): Report {
    Report(ctx.runId, ctx.reportDate, Final, ctx.text, ctx.payload)
  }

  /** An `update ... where id = runId`; a missing id matches no row. */
  function SetRunStatus(runs: seq<Run>, runId: nat, status: RunStatus, error: Option<Failure>): seq<Run> {
    if runId < |runs| then runs[runId := runs[runId].(status := status, error := error)] else runs
  }

  function MarkPdfGeneratedIn(reports: map<ReportKey, Report>, key: ReportKey): map<ReportKey, Report> {
    if key in reports then reports[key := reports[key].(status := PdfGenerated)] else reports
  }

  function LinkLatest(targets: map<TargetKey, Target>, t: TargetKey, runId: nat): map<TargetKey, Target> {
    if t in targets then targets[t := Target(Some(runId))] else targets
  }

  /** The write one `try` step makes when it succeeds. */
  function Apply(s: Store, step: Step, ctx: Ctx): Store {
    match step
    case EnsureTemplate => s.(templates := s.templates + {ctx.reportKey.templateId})
    case ClearLatest => s.(summaries := Cleared(s.summaries, ctx))
    case InsertSummary => s.(summaries := s.summaries + [NewSummary(ctx)])
    case UpsertReport => s.(reports := s.reports[ctx.reportKey := NewReport(ctx)])
    case UploadPdf => s.(files := s.files[ctx.path := ctx.pdf])
    case InsertPdfRow => s.(pdfs := s.pdfs + [PdfRow(ctx.reportKey, ctx.path)])
    case MarkPdfGenerated => s.(reports := MarkPdfGeneratedIn(s.reports, ctx.reportKey))
    case CompleteRun => s.(runs := SetRunStatus(s.runs, ctx.runId, Completed, None))
    case LinkLatestRun => s.(targets := LinkLatest(s.targets, ctx.target, ctx.runId))
    case _ => s
  }

  /** The store after the first `n` steps of the `try` block. */
  function ApplyFirst(s: Store, n: nat, ctx: Ctx): Store
    requires n <= |TrySteps|
  {
    if n == 0 then s else Apply(ApplyFirst(s, n - 1, ctx), TrySteps[n - 1], ctx)
  }

  /** The store after the first `n` steps of the `try` block, table by
      table: each table holds the writes of exactly those steps among the
      first `n` that touch it. */
  function AfterSteps(s: Store, n: nat, ctx: Ctx): Store
  {
    Store(
      if n >= 10 then LinkLatest(s.targets, ctx.target, ctx.runId) else s.targets,
      if n >= 9 then SetRunStatus(s.runs, ctx.runId, Completed, None) else s.runs,
      if n >= 2 then s.templates + {ctx.reportKey.templateId} else s.templates,
      if n >= 4 then Cleared(s.summaries, ctx) + [NewSummary(ctx)]
      else if n == 3 then Cleared(s.summaries, ctx)
      else s.summaries,
      if n >= 8 then MarkPdfGeneratedIn(s.reports[ctx.reportKey := NewReport(ctx)], ctx.reportKey)
      else if n >= 5 then s.reports[ctx.reportKey := NewReport(ctx)]
      else s.reports,
      if n >= 7 then s.pdfs + [PdfRow(ctx.reportKey, ctx.path)] else s.pdfs,
      if n >= 6 then s.files[ctx.path := ctx.pdf] else s.files)
  }

  /** The index in `TrySteps` of the step that throws, or `|TrySteps|`
      when none does; the reset of `is_latest` (index 2) never throws. */
  function FailIndex(ctx: Ctx): nat
  {
    if ctx.reply.None? then 0
    else if EnsureTemplate in ctx.failing then 1
    else if InsertSummary in ctx.failing then 3
    else if UpsertReport in ctx.failing then 4
    else if UploadPdf in ctx.failing then 5
    else if InsertPdfRow in ctx.failing then 6
    else if MarkPdfGenerated in ctx.failing then 7
    else if CompleteRun in ctx.failing then 8
    else if LinkLatestRun in ctx.failing then 9
    else 10
  }

  /** The `try` block stops at the first step that throws: every earlier
      step succeeds, and the step at the index (if any) throws. */
  lemma FailIndexIsFirst(ctx: Ctx)
    ensures FailIndex(ctx) <= |TrySteps|
    ensures forall j :: 0 <= j < FailIndex(ctx) ==> !Fails(TrySteps[j], ctx)
    ensures FailIndex(ctx) < |TrySteps| ==> Fails(TrySteps[FailIndex(ctx)], ctx)
  {
  }

  /** The step whose error reaches the `catch`, if any. */
  function FailedStep(ctx: Ctx): Option<Step> {
    if FailIndex(ctx) < |TrySteps| then Some(TrySteps[FailIndex(ctx)]) else None
  }

  /** The `catch`: mark the run failed (the error of this update is ignored). */
  function MarkFailed(s: Store, runId: nat, f: Failure, ok: bool): Store {
    if ok then s.(runs := SetRunStatus(s.runs, runId, Failed, Some(f))) else s
  }

  /** The target upsert: an existing row keeps its `latest_completed_run_id`. */
  function UpsertTargetRow(targets: map<TargetKey, Target>, t: TargetKey): map<TargetKey, Target> {
    if t in targets then targets else targets[t := Target(None)]
  }

  /** The summary run row, inserted with status "processing". */
  function OpenRun(s: Store, target: TargetKey, inputHash: string): Store {
    s.(targets := UpsertTargetRow(s.targets, target),
       runs := s.runs + [Run(target, Processing, inputHash, None)])
  }

  /** The whole operation: the new store and the error it throws, if any. */
  function Generate(s: Store, conversationId: string, w: World): (Store, Option<Failure>)
  {
    match Prepare(w)
    case Err(f) => (s, Some(f))
    case Ok(job) => Writes(s, conversationId, job, PayloadOf(w, job), w)
  }

  /** Everything after the checks: the target upsert, the run row, and the
      `try` block with its `catch`. */
  function Writes(s: Store, conversationId: string, job: Job, payload: ReportPayload, w: World): (Store, Option<Failure>)
  {
    var target := TargetKey(job.personId, conversationId);
    if UpsertTarget in w.failing then (s, Some(StepFailed(UpsertTarget)))
    else if CreateRun in w.failing then
      (s.(targets := UpsertTargetRow(s.targets, target)), Some(StepFailed(CreateRun)))
    else
      TryCatch(OpenRun(s, target, w.sha256(job.transcript)), MakeCtx(conversationId, job, payload, |s.runs|, w),
               w.markFailedOk)
  }

  /** The `try` block and its `catch`, once the run row `ctx.runId` exists:
      the error is rethrown after the run is marked failed. */
  function TryCatch(s: Store, ctx: Ctx, markFailedOk: bool): (Store, Option<Failure>) {
    var after := AfterSteps(s, FailIndex(ctx), ctx);
    match FailedStep(ctx)
    case None => (after, None)
    case Some(step) => (MarkFailed(after, ctx.runId, StepFailed(step), markFailedOk), Some(StepFailed(step)))
  }

  // ----------------------------------------------------------------------
  // The imperative operation

  class ReportDatabase {
    var targets: map<TargetKey, Target>
    var runs: seq<Run>
    var templates: set<string>
    var summaries: seq<Summary>
    var reports: map<ReportKey, Report>
    var pdfs: seq<PdfRow>
    var files: map<string, seq<Draw>>

    function Snapshot(): Store
      reads this
    {
      Store(targets, runs, templates, summaries, reports, pdfs, files)
    }

    constructor ()
      ensures Snapshot() == Store(map[], [], {}, [], map[], [], map[])
    {
      targets, runs, templates, summaries := map[], [], {}, [];
      reports, pdfs, files := map[], [], map[];
    }

    /** `generateAndStoreConversationReport(conversationId)`; `None` when it
        returns normally, otherwise the error it throws. */
    method GenerateAndStoreConversationReport(conversationId: string, w: World)
      returns (outcome: Option<Failure>)
      modifies this
      ensures (Snapshot(), outcome) == Generate(old(Snapshot()), conversationId, w)
    {
      // The loads and checks that throw before anything is written.
      var prepared := Prepare(w);
      if prepared.Err? {
        return Some(prepared.error);
      }
      var job := prepared.value;
      outcome := WriteAll(conversationId, job, PayloadOf(w, job), w);
    }

    method WriteAll(conversationId: string, job: Job, payload: ReportPayload, w: World) returns (outcome: Option<Failure>)
      modifies this
      ensures (Snapshot(), outcome) == Writes(old(Snapshot()), conversationId, job, payload, w)
    {
      if UpsertTarget in w.failing {
        return Some(StepFailed(UpsertTarget));
      }
      var target := TargetKey(job.personId, conversationId);
      if target !in targets {
        targets := targets[target := Target(None)];
      }
      if CreateRun in w.failing {
        return Some(StepFailed(CreateRun));
      }
      var runId := |runs|;
      runs := runs + [Run(target, Processing, w.sha256(job.transcript), None)];
      var ctx := MakeCtx(conversationId, job, payload, runId, w);
      assert Snapshot() == OpenRun(old(Snapshot()), target, w.sha256(job.transcript));
      outcome := TryCatchReport(ctx, w.markFailedOk);
    }

    /** The `try` block with its `catch`: on an error the run is marked
        failed (when that update goes through) and the error is rethrown. */
    method TryCatchReport(ctx: Ctx, markFailedOk: bool) returns (outcome: Option<Failure>)
      requires ctx.pdf == ReportDraws(ctx.text)
      modifies this
      ensures (Snapshot(), outcome) == TryCatch(old(Snapshot()), ctx, markFailedOk)
    {
      var failed := WriteReport(ctx);
      if failed.Some? {
        if markFailedOk {
          runs := SetRunStatus(runs, ctx.runId, Failed, Some(StepFailed(failed.value)));
        }
        return Some(StepFailed(failed.value));
      }
      return None;
    }

    /** The `try` block: the steps in order until the first one that throws.
        `ctx` carries the sanitised reply and the report text built from it. */
    method WriteReport(ctx: Ctx) returns (failed: Option<Step>)
      requires ctx.pdf == ReportDraws(ctx.text)
      modifies this
      ensures Snapshot() == AfterSteps(old(Snapshot()), FailIndex(ctx), ctx)
      ensures failed == FailedStep(ctx)
    {
      if ctx.reply.None? {
        return Some(RequestSummary);
      }

      if EnsureTemplate in ctx.failing {
        return Some(EnsureTemplate);
      }
      templates := templates + {ctx.reportKey.templateId};

      if ClearLatest !in ctx.failing {
        summaries := ClearLatestOf(summaries, ctx.target);
      }

      if InsertSummary in ctx.failing {
        return Some(InsertSummary);
      }
      summaries := summaries + [Summary(ctx.target, ctx.runId, true, ctx.inputHash, ctx.text, ctx.payload)];

      if UpsertReport in ctx.failing {
        return Some(UpsertReport);
      }
      reports := reports[ctx.reportKey := Report(ctx.runId, ctx.reportDate, Final, ctx.text, ctx.payload)];

      ghost var s0 := old(Snapshot());
      assert Snapshot() == AfterSteps(s0, 5, ctx);
      failed := FinishReport(s0, ctx);
    }

    /** The steps from the PDF upload on, once the report row is written. */
    method FinishReport(ghost s0: Store, ctx: Ctx) returns (failed: Option<Step>)
      requires ctx.pdf == ReportDraws(ctx.text)
      requires 5 <= FailIndex(ctx)
      requires Snapshot() == AfterSteps(s0, 5, ctx)
      modifies this
      ensures Snapshot() == AfterSteps(s0, FailIndex(ctx), ctx)
      ensures failed == FailedStep(ctx)
    {
      var pdf := BuildReportPdf(ctx.text);
      if UploadPdf in ctx.failing {
        return Some(UploadPdf);
      }
      files := files[ctx.path := pdf];

      if InsertPdfRow in ctx.failing {
        return Some(InsertPdfRow);
      }
      pdfs := pdfs + [PdfRow(ctx.reportKey, ctx.path)];

      if MarkPdfGenerated in ctx.failing {
        return Some(MarkPdfGenerated);
      }
      reports := MarkPdfGeneratedIn(reports, ctx.reportKey);

      if CompleteRun in ctx.failing {
        return Some(CompleteRun);
      }
      runs := SetRunStatus(runs, ctx.runId, Completed, None);

      if LinkLatestRun in ctx.failing {
        return Some(LinkLatestRun);
      }
      targets := LinkLatest(targets, ctx.target, ctx.runId);
      return None;
    }
  }

  // ----------------------------------------------------------------------
  // The try block

  /** The writes of the `try` block whose errors are checked. */
  const CheckedWrites: set<Step> :=
    {EnsureTemplate, InsertSummary, UpsertReport, UploadPdf, InsertPdfRow,
     MarkPdfGenerated, CompleteRun, LinkLatestRun}

  /** Applying the steps one at a time, in source order, gives the
      table-by-table description. */
  lemma {:induction false} StepwiseMatchesAfterSteps(s: Store, n: nat, ctx: Ctx)
    requires n <= |TrySteps|
    ensures ApplyFirst(s, n, ctx) == AfterSteps(s, n, ctx)
  {
    if n > 0 {
      StepwiseMatchesAfterSteps(s, n - 1, ctx);
      StepExtends(s, n - 1, ctx);
    }
  }

  /** One more step turns the description after `k` steps into the one after `k + 1`. */
  lemma StepExtends(s: Store, k: nat, ctx: Ctx)
    requires k < |TrySteps|
    ensures Apply(AfterSteps(s, k, ctx), TrySteps[k], ctx) == AfterSteps(s, k + 1, ctx)
  {
    var before := AfterSteps(s, k, ctx);
    if k <= 1 {
    } else if k <= 4 {
      if k == 3 {
        assert before.summaries == Cleared(s.summaries, ctx);
      }
    } else if k <= 7 {
      assert before.reports == s.reports[ctx.reportKey := NewReport(ctx)];
    } else {
    }
  }

  /** The `try` block runs to its end exactly when the reply arrived and
      none of its checked writes fails. */
  lemma TryCatchOutcome(s: Store, ctx: Ctx, markFailedOk: bool)
    ensures TryCatch(s, ctx, markFailedOk).1.None? <==> ctx.reply.Some? && ctx.failing !! CheckedWrites
  {
  }

  /** The `try` block and `catch` touch only their own run row, which ends
      "completed" on success and "failed" with the error otherwise; the
      target's latest run is linked only on success. */
  lemma TryCatchRunAndTarget(s: Store, ctx: Ctx, markFailedOk: bool)
    requires ctx.runId < |s.runs|
    ensures |TryCatch(s, ctx, markFailedOk).0.runs| == |s.runs|
    ensures forall i :: 0 <= i < |s.runs| && i != ctx.runId ==>
      TryCatch(s, ctx, markFailedOk).0.runs[i] == s.runs[i]
    ensures TryCatch(s, ctx, markFailedOk).1.None? ==>
      TryCatch(s, ctx, markFailedOk).0.runs[ctx.runId] == s.runs[ctx.runId].(status := Completed, error := None)
    ensures TryCatch(s, ctx, markFailedOk).1.Some? && markFailedOk ==>
      TryCatch(s, ctx, markFailedOk).0.runs[ctx.runId]
        == s.runs[ctx.runId].(status := Failed, error := TryCatch(s, ctx, markFailedOk).1)
    ensures TryCatch(s, ctx, markFailedOk).1.None? ==>
      TryCatch(s, ctx, markFailedOk).0.targets == LinkLatest(s.targets, ctx.target, ctx.runId)
    ensures TryCatch(s, ctx, markFailedOk).1.Some? ==> TryCatch(s, ctx, markFailedOk).0.targets == s.targets
  {
  }

  // ----------------------------------------------------------------------
  // The whole operation

  /** Each check before the first write throws its own error and leaves
      every table as it was; so does a failed target upsert, and a failed
      run insert leaves only the target row behind. */
  lemma EarlyFailuresWriteNothing(s: Store, conversationId: string, w: World)
    ensures Prepare(w) == Err(ConversationNotFound) <==> w.conversation.None?
    ensures Prepare(w) == Err(NoPersonId) <==>
      w.conversation.Some? && PersonIdOf(w.conversation.value) == ""
    ensures Prepare(w).Err? <==>
      w.conversation.None? || PersonIdOf(w.conversation.value) == "" || w.messages.None? || w.messages.value == []
    ensures Prepare(w).Err? ==> Generate(s, conversationId, w) == (s, Some(Prepare(w).error))
    ensures UpsertTarget in w.failing ==> Generate(s, conversationId, w).0 == s
    ensures Prepare(w).Ok? && UpsertTarget !in w.failing && CreateRun in w.failing ==>
      Generate(s, conversationId, w)
        == (s.(targets := UpsertTargetRow(s.targets, TargetKey(Prepare(w).value.personId, conversationId))),
            Some(StepFailed(CreateRun)))
  {
  }

  /** The writes every fallible call of the operation may make. */
  const FatalSteps: set<Step> := CheckedWrites + {UpsertTarget, CreateRun}

  /** Once the checks pass, the operation is `Writes` on what they produced. */
  lemma GenerateIsWrites(s: Store, conversationId: string, w: World, job: Job)
    requires Prepare(w) == Ok(job)
    ensures Generate(s, conversationId, w) == Writes(s, conversationId, job, PayloadOf(w, job), w)
  {
  }

  /** A run that was opened for `target` and whose `try` block completed. */
  lemma OpenedRunCompletes(s: Store, target: TargetKey, inputHash: string, ctx: Ctx, markFailedOk: bool)
    requires ctx.runId == |s.runs| && ctx.target == target
    requires TryCatch(OpenRun(s, target, inputHash), ctx, markFailedOk).1.None?
    ensures TryCatch(OpenRun(s, target, inputHash), ctx, markFailedOk).0.runs
      == s.runs + [Run(target, Completed, inputHash, None)]
    ensures TryCatch(OpenRun(s, target, inputHash), ctx, markFailedOk).0.targets
      == s.targets[target := Target(Some(|s.runs|))]
    ensures TryCatch(OpenRun(s, target, inputHash), ctx, markFailedOk).0.reports
      == s.reports[ctx.reportKey := NewReport(ctx).(status := PdfGenerated)]
    ensures TryCatch(OpenRun(s, target, inputHash), ctx, markFailedOk).0.pdfs
      == s.pdfs + [PdfRow(ctx.reportKey, ctx.path)]
    ensures TryCatch(OpenRun(s, target, inputHash), ctx, markFailedOk).0.summaries
      == Cleared(s.summaries, ctx) + [NewSummary(ctx)]
  {
    var s2 := OpenRun(s, target, inputHash);
    TryCatchOutcome(s2, ctx, markFailedOk);
    assert TryCatch(s2, ctx, markFailedOk).0 == AfterSteps(s2, |TrySteps|, ctx);
    assert s2.runs[|s.runs| := s2.runs[|s.runs|].(status := Completed, error := None)]
      == s.runs + [Run(target, Completed, inputHash, None)];
  }

  /** After the checks, the operation returns normally exactly when the
      reply arrives and no checked write fails; the new run is then
      "completed" and the target links to it (the other tables as in
      `OpenedRunCompletes`). */
  lemma SuccessCompletesRun(s: Store, conversationId: string, job: Job, payload: ReportPayload, w: World)
    ensures Writes(s, conversationId, job, payload, w).1.None? <==> w.reply.Some? && w.failing !! FatalSteps
    ensures Writes(s, conversationId, job, payload, w).1.None? ==>
      && Writes(s, conversationId, job, payload, w).0.runs
           == s.runs + [Run(TargetKey(job.personId, conversationId), Completed, w.sha256(job.transcript), None)]
      && Writes(s, conversationId, job, payload, w).0.targets
           == s.targets[TargetKey(job.personId, conversationId) := Target(Some(|s.runs|))]
  {
    if UpsertTarget !in w.failing && CreateRun !in w.failing {
      var target := TargetKey(job.personId, conversationId);
      var ctx := MakeCtx(conversationId, job, payload, |s.runs|, w);
      TryCatchOutcome(OpenRun(s, target, w.sha256(job.transcript)), ctx, w.markFailedOk);
      if Writes(s, conversationId, job, payload, w).1.None? {
        OpenedRunCompletes(s, target, w.sha256(job.transcript), ctx, w.markFailedOk);
      }
    }
  }

  /** A run whose `try` block threw: the earlier runs are untouched, the new
      run is "failed" with the error when the `catch` update goes through,
      and the target keeps the latest run it had. */
  lemma OpenedRunFails(s: Store, target: TargetKey, inputHash: string, ctx: Ctx, markFailedOk: bool)
    requires ctx.runId == |s.runs| && ctx.target == target
    requires TryCatch(OpenRun(s, target, inputHash), ctx, markFailedOk).1.Some?
    ensures |TryCatch(OpenRun(s, target, inputHash), ctx, markFailedOk).0.runs| == |s.runs| + 1
    ensures TryCatch(OpenRun(s, target, inputHash), ctx, markFailedOk).0.runs[..|s.runs|] == s.runs
    ensures markFailedOk ==>
      TryCatch(OpenRun(s, target, inputHash), ctx, markFailedOk).0.runs[|s.runs|]
        == Run(target, Failed, inputHash, TryCatch(OpenRun(s, target, inputHash), ctx, markFailedOk).1)
    ensures TryCatch(OpenRun(s, target, inputHash), ctx, markFailedOk).0.targets
      == UpsertTargetRow(s.targets, target)
  {
    var s2 := OpenRun(s, target, inputHash);
    TryCatchRunAndTarget(s2, ctx, markFailedOk);
    var runs := TryCatch(s2, ctx, markFailedOk).0.runs;
    assert forall i :: 0 <= i < |s.runs| ==> runs[..|s.runs|][i] == s.runs[i];
  }

  /** When the upload, the PDF row or the status update fails, the report
      row stays as upserted, with status "final". */
  lemma ReportStaysFinal(s: Store, ctx: Ctx, markFailedOk: bool)
    requires FailedStep(ctx) in {Some(UploadPdf), Some(InsertPdfRow), Some(MarkPdfGenerated)}
    ensures ctx.reportKey in TryCatch(s, ctx, markFailedOk).0.reports
    ensures TryCatch(s, ctx, markFailedOk).0.reports[ctx.reportKey] == NewReport(ctx)
    ensures TryCatch(s, ctx, markFailedOk).0.reports[ctx.reportKey].status == Final
  {
  }

  /** No two summaries of one target are both marked latest. */
  predicate AtMostOneLatest(xs: seq<Summary>) {
    forall i, j :: 0 <= i < j < |xs| && xs[i].isLatest && xs[j].isLatest ==> xs[i].target != xs[j].target
  }

  /** When the reset of `is_latest` goes through, each target keeps at most
      one latest summary. */
  lemma LatestSummaryUnique(s: Store, ctx: Ctx, markFailedOk: bool)
    requires AtMostOneLatest(s.summaries)
    requires ClearLatest !in ctx.failing
    ensures AtMostOneLatest(TryCatch(s, ctx, markFailedOk).0.summaries)
  {
    var cleared := ClearLatestOf(s.summaries, ctx.target);
    assert AtMostOneLatest(cleared);
    assert AtMostOneLatest(cleared + [NewSummary(ctx)]) by {
      var xs := cleared + [NewSummary(ctx)];
      forall i, j | 0 <= i < j < |xs| && xs[i].isLatest && xs[j].isLatest
        ensures xs[i].target != xs[j].target
      {
        if j == |cleared| {
          assert xs[i] == cleared[i];
        } else {
          assert xs[i] == cleared[i] && xs[j] == cleared[j];
        }
      }
    }
  }

  /** The reset's error is ignored: when it fails and the rest succeeds, a
      target that had a latest summary ends up with two. */
  lemma FailedResetLeavesTwoLatest(s: Store, ctx: Ctx, markFailedOk: bool, k: nat)
    requires ClearLatest in ctx.failing
    requires TryCatch(s, ctx, markFailedOk).1.None?
    requires k < |s.summaries| && s.summaries[k].isLatest && s.summaries[k].target == ctx.target
    ensures !AtMostOneLatest(TryCatch(s, ctx, markFailedOk).0.summaries)
  {
    TryCatchOutcome(s, ctx, markFailedOk);
    var xs := TryCatch(s, ctx, markFailedOk).0.summaries;
    assert xs == s.summaries + [NewSummary(ctx)];
    assert xs[k] == s.summaries[k] && xs[|s.summaries|] == NewSummary(ctx);
  }

  /** Every target's latest completed run exists, is "completed" and is a run of that target. */
  predicate LatestRunsCompleted(s: Store) {
    forall t :: t in s.targets && s.targets[t].latestCompletedRunId.Some? ==>
      && s.targets[t].latestCompletedRunId.value < |s.runs|
      && s.runs[s.targets[t].latestCompletedRunId.value].status == Completed
      && s.runs[s.targets[t].latestCompletedRunId.value].target == t
  }

  lemma OpenedRunKeepsLatestCompleted(s: Store, target: TargetKey, inputHash: string, ctx: Ctx, markFailedOk: bool)
    requires ctx.runId == |s.runs| && ctx.target == target
    requires LatestRunsCompleted(s)
    ensures LatestRunsCompleted(TryCatch(OpenRun(s, target, inputHash), ctx, markFailedOk).0)
  {
    var r := TryCatch(OpenRun(s, target, inputHash), ctx, markFailedOk).0;
    if TryCatch(OpenRun(s, target, inputHash), ctx, markFailedOk).1.None? {
      OpenedRunCompletes(s, target, inputHash, ctx, markFailedOk);
      assert r.runs[|s.runs|].status == Completed;
    } else {
      OpenedRunFails(s, target, inputHash, ctx, markFailedOk);
      forall t | t in r.targets && r.targets[t].latestCompletedRunId.Some?
        ensures r.targets[t].latestCompletedRunId.value < |s.runs|
        ensures r.runs[r.targets[t].latestCompletedRunId.value] == s.runs[r.targets[t].latestCompletedRunId.value]
      {
        assert r.runs[..|s.runs|][r.targets[t].latestCompletedRunId.value]
          == s.runs[r.targets[t].latestCompletedRunId.value];
      }
    }
  }

  /** Whatever fails, a target's `latest_completed_run_id` only ever names a
      completed run of that target: the link is the last write, made after
      the run is marked completed, and the `catch` only touches the new run. */
  lemma GenerateKeepsLatestCompleted(s: Store, conversationId: string, w: World)
    requires LatestRunsCompleted(s)
    ensures LatestRunsCompleted(Generate(s, conversationId, w).0)
  {
    if Prepare(w).Ok? {
      var job := Prepare(w).value;
      GenerateIsWrites(s, conversationId, w, job);
      WritesKeepLatestCompleted(s, conversationId, job, PayloadOf(w, job), w);
    }
  }

  lemma WritesKeepLatestCompleted(s: Store, conversationId: string, job: Job, payload: ReportPayload, w: World)
    requires LatestRunsCompleted(s)
    ensures LatestRunsCompleted(Writes(s, conversationId, job, payload, w).0)
  {
    var target := TargetKey(job.personId, conversationId);
    if UpsertTarget !in w.failing && CreateRun !in w.failing {
      var ctx := MakeCtx(conversationId, job, payload, |s.runs|, w);
      var r := TryCatch(OpenRun(s, target, w.sha256(job.transcript)), ctx, w.markFailedOk);
      assert Writes(s, conversationId, job, payload, w) == r;
      OpenedRunKeepsLatestCompleted(s, target, w.sha256(job.transcript), ctx, w.markFailedOk);
    }
  }

  /** Targets and reports are upserted on their unique keys: an opened run
      adds at most the row for its own key to each, keeps every other row's
      key, and adds exactly one run. */
  lemma OpenedRunUpsertsByKey(s: Store, target: TargetKey, inputHash: string, ctx: Ctx, markFailedOk: bool)
    requires ctx.runId == |s.runs| && ctx.target == target
    ensures TryCatch(OpenRun(s, target, inputHash), ctx, markFailedOk).0.targets.Keys == s.targets.Keys + {target}
    ensures s.reports.Keys <= TryCatch(OpenRun(s, target, inputHash), ctx, markFailedOk).0.reports.Keys
    ensures TryCatch(OpenRun(s, target, inputHash), ctx, markFailedOk).0.reports.Keys
      <= s.reports.Keys + {ctx.reportKey}
    ensures |TryCatch(OpenRun(s, target, inputHash), ctx, markFailedOk).0.runs| == |s.runs| + 1
  {
    TryCatchRunAndTarget(OpenRun(s, target, inputHash), ctx, markFailedOk);
  }

  /** Generating the report for the same conversation twice leaves one
      target row and one report row for it, with two runs recorded. */
  lemma RegenerationKeepsOneRow(s: Store, target: TargetKey, hash1: string, ctx1: Ctx, ok1: bool,
                                hash2: string, ctx2: Ctx, ok2: bool)
    requires ctx1.runId == |s.runs| && ctx1.target == target
    requires ctx2.runId == |s.runs| + 1 && ctx2.target == target && ctx2.reportKey == ctx1.reportKey
    ensures var first := TryCatch(OpenRun(s, target, hash1), ctx1, ok1).0;
      && TryCatch(OpenRun(first, target, hash2), ctx2, ok2).0.targets.Keys == s.targets.Keys + {target}
      && TryCatch(OpenRun(first, target, hash2), ctx2, ok2).0.reports.Keys <= s.reports.Keys + {ctx1.reportKey}
      && |TryCatch(OpenRun(first, target, hash2), ctx2, ok2).0.runs| == |s.runs| + 2
  {
    var first := TryCatch(OpenRun(s, target, hash1), ctx1, ok1).0;
    OpenedRunUpsertsByKey(s, target, hash1, ctx1, ok1);
    OpenedRunUpsertsByKey(first, target, hash2, ctx2, ok2);
  }
}
