/**
 One delivery of a conversion job: the processor's stages, the row it persists, the
 events it publishes and the credits it deducts, for every pattern of failing calls.

 `Process` gives the externally visible effects of a delivery in order. A worker that
 crashes leaves a prefix of them, so statements about prefixes are statements about
 crashes at any point. The class performs the same effects step by step.
 */
module ConversionJob {
  import opened Basics

  /** The persisted columns that matter here; `output` is empty until there is one. */
  datatype Row = Row(status: JobStatus, output: string, progress: nat)

  datatype Event = Progress(percent: nat) | Completed(output: string) | Failed

  datatype Effect =
    | Persisted(row: Row)
    | PersistFailed
    | Published(event: Event)
    | PublishFailed
    | Uploaded(key: string)
    | Charged

  datatype Precheck = Unavailable | Spendable | Exhausted

  /** One attempt of `consume` to run its transaction. A dropped connection is retried once,
      whether or not the commit had taken effect; any other error is not. */
  datatype Attempt = Commits | CommitsThenDrops | CommitsThenRaises | Drops | Raises {
    predicate Deducts() {
      Commits? || CommitsThenDrops? || CommitsThenRaises?
    }

    predicate Retried() {
      CommitsThenDrops? || Drops?
    }
  }

  /** The two attempts of one call of `consume`; the second is used only if the first drops. */
  datatype Consume = Consume(first: Attempt, second: Attempt) {
    function Deductions(): nat {
      (if first.Deducts() then 1 else 0) + (if first.Retried() && second.Deducts() then 1 else 0)
    }
  }

  /** How every call of one delivery goes. The pairs are the two attempts of a terminal persist. */
  datatype Env = Env(
    repository: bool, guardReadOk: bool, hasObjectKey: bool,
    credits: bool, precheck: Precheck, consume: Consume, key: string,
    prepare: bool,   // the temporary directory and the input path
    saveStart: bool, save25: bool, save50: bool, save75: bool,
    saveExhausted: (bool, bool), saveCompleted: (bool, bool), saveFailed: (bool, bool),
    publishReplay: bool, publishExhausted: bool, publish25: bool, publish50: bool, publish75: bool,
    publishCompleted: bool, publishFailed: bool,
    download: bool, convert: bool, upload: bool)

  /** The effects of a delivery, and whether an exception left the processor. */
  datatype Result = Result(effects: seq<Effect>, raised: bool)

  // ---------------------------------------------------------------------------
  // The processor
  // ---------------------------------------------------------------------------

  function Save(env: Env, ok: bool, es: seq<Effect>, row: Row): seq<Effect> {
    if !env.repository then es else if ok then es + [Persisted(row)] else es + [PersistFailed]
  }

  function SaveTerminal(env: Env, ok: (bool, bool), es: seq<Effect>, row: Row): seq<Effect> {
    if env.repository && !ok.0 then Save(env, ok.1, es + [PersistFailed], row) else Save(env, ok.0, es, row)
  }

  function Publish(ok: bool, es: seq<Effect>, event: Event): seq<Effect> {
    es + [if ok then Published(event) else PublishFailed]
  }

  /** The exception handler: force FAILED, persist, publish, and raise again. */
  function Abort(env: Env, row: Row, progress: nat, es: seq<Effect>): Result {
    Result(Publish(env.publishFailed, SaveTerminal(env, env.saveFailed, es, Row(FAILED, row.output, progress)), Failed), true)
  }

  predicate Finished(row: Option<Row>) {
    row.Some? && row.value.status == COMPLETED && row.value.output != ""
  }

  function Process(env: Env, stored: Option<Row>): Result {
    if env.repository && env.guardReadOk && Finished(stored) then
      Result(Publish(env.publishReplay, [], Completed(stored.value.output)), !env.publishReplay)
    else if !env.hasObjectKey then
      Abort(env, Row(PENDING, "", 0), 0, [])
    else
      CheckCredits(env, Save(env, env.saveStart, [], Row(PROCESSING, "", 0)))
  }

  /** An exhausted wallet ends the job here, unless publishing that very event raises: the
      pre-check's own handler then lets the failed job go on. */
  function CheckCredits(env: Env, es: seq<Effect>): Result {
    if env.credits && env.precheck.Exhausted? then
      var row := Row(FAILED, "", 100);
      var es' := Publish(env.publishExhausted, SaveTerminal(env, env.saveExhausted, es, row), Failed);
      if env.publishExhausted then Result(es', false) else Prepare(env, row, es')
    else Prepare(env, Row(PROCESSING, "", 0), es)
  }

  /** Nothing has been announced yet when this fails. */
  function Prepare(env: Env, row: Row, es: seq<Effect>): Result {
    if env.prepare then Download(env, row, es) else Abort(env, row, 0, es)
  }

  function Download(env: Env, row: Row, es: seq<Effect>): Result {
    var es' := Publish(env.publish25, es, Progress(25));
    if !env.publish25 then Abort(env, row, 25, es')
    else
      var es'' := Save(env, env.save25, es', row.(progress := 25));
      if !env.download then Abort(env, row, 25, es'') else Convert(env, row, es'')
  }

  function Convert(env: Env, row: Row, es: seq<Effect>): Result {
    var es' := Publish(env.publish50, es, Progress(50));
    if !env.publish50 then Abort(env, row, 50, es')
    else
      var es'' := Save(env, env.save50, es', row.(progress := 50));
      if !env.convert then Abort(env, row, 50, es'') else Upload(env, row, es'')
  }

  function Upload(env: Env, row: Row, es: seq<Effect>): Result {
    var es' := Publish(env.publish75, es, Progress(75));
    if !env.publish75 then Abort(env, row, 75, es')
    else
      var es'' := Save(env, env.save75, es', row.(progress := 75));
      if !env.upload then Abort(env, row, 75, es'') else Complete(env, row, es'' + [Uploaded(env.key)])
  }

  /** `job.complete` refuses any status but PROCESSING. */
  function Complete(env: Env, row: Row, es: seq<Effect>): Result {
    if row.status != PROCESSING then Abort(env, row, 75, es)
    else
      var done := Row(COMPLETED, env.key, 100);
      var es' := SaveTerminal(env, env.saveCompleted, Charge(env, es), done);
      var es'' := Publish(env.publishCompleted, es', Completed(env.key));
      if env.publishCompleted then Result(es'', false) else Abort(env, done, 100, es'')
  }

  function Charge(env: Env, es: seq<Effect>): seq<Effect> {
    if !env.credits then es
    else
      var es' := Attempted(env.consume.first, es);
      if env.consume.first.Retried() then Attempted(env.consume.second, es') else es'
  }

  function Attempted(a: Attempt, es: seq<Effect>): seq<Effect> {
    if a.Deducts() then es + [Charged] else es
  }

  // ---------------------------------------------------------------------------
  // Reading effects
  // ---------------------------------------------------------------------------

  function Most<T>(s: seq<T>): seq<T>
    requires s != []
  {
    s[..|s| - 1]
  }

  function Last<T>(s: seq<T>): T
    requires s != []
  {
    s[|s| - 1]
  }

  /** The stored row after some effects. Persisting is an UPDATE: it succeeds on a missing
      row as well, and stores nothing. */
  function RowAfter(stored: Option<Row>, es: seq<Effect>): Option<Row> {
    if es == [] then stored else Updated(RowAfter(stored, Most(es)), Last(es))
  }

  function Updated(row: Option<Row>, e: Effect): Option<Row> {
    if e.Persisted? && row.Some? then Some(e.row) else row
  }

  /** The row after some effects when it is deleted (from the history, or by the guest
      sweep) once `deleted` of them have happened. */
  function RowWhen(stored: Option<Row>, es: seq<Effect>, deleted: Option<nat>): Option<Row> {
    if deleted.Some? && deleted.value <= |es| then RowAfter(None, es[deleted.value..]) else RowAfter(stored, es)
  }

  /** No effect of a delivery brings a missing row back, or removes an existing one. */
  lemma {:induction false} RowsAreOnlyUpdated(stored: Option<Row>, es: seq<Effect>)
    ensures RowAfter(stored, es).Some? == stored.Some?
  {
    if es != [] {
      RowsAreOnlyUpdated(stored, Most(es));
    }
  }

  function Events(es: seq<Effect>): seq<Event> {
    if es == [] then []
    else Events(Most(es)) + (if Last(es).Published? then [Last(es).event] else [])
  }

  function Charges(es: seq<Effect>): nat {
    if es == [] then 0 else Charges(Most(es)) + (if Last(es).Charged? then 1 else 0)
  }

  lemma Adding(stored: Option<Row>, es: seq<Effect>, e: Effect)
    ensures RowAfter(stored, es + [e]) == Updated(RowAfter(stored, es), e)
    ensures Events(es + [e]) == Events(es) + if e.Published? then [e.event] else []
    ensures Charges(es + [e]) == Charges(es) + if e.Charged? then 1 else 0
    ensures es < es + [e] && Most(es + [e]) == es && Last(es + [e]) == e
  {
    assert (es + [e])[..|es|] == es;
  }

  // ---------------------------------------------------------------------------
  // Events of one delivery
  // ---------------------------------------------------------------------------

  const PHASES := [Progress(25), Progress(50), Progress(75)]

  predicate PublishingWorks(env: Env) {
    && env.publishReplay && env.publishExhausted && env.publish25 && env.publish50 && env.publish75
    && env.publishCompleted && env.publishFailed
  }

  lemma OneSilent(es: seq<Effect>, e: Effect)
    requires !e.Published? && !e.Charged?
    ensures Events(es + [e]) == Events(es) && Charges(es + [e]) == Charges(es)
  {
    Adding(None, es, e);
    assert Events(es) + [] == Events(es);
  }

  lemma SaveIsSilent(env: Env, ok: bool, es: seq<Effect>, row: Row)
    ensures Events(Save(env, ok, es, row)) == Events(es) && Charges(Save(env, ok, es, row)) == Charges(es)
  {
    OneSilent(es, Persisted(row));
    OneSilent(es, PersistFailed);
  }

  lemma SaveTerminalIsSilent(env: Env, ok: (bool, bool), es: seq<Effect>, row: Row)
    ensures Events(SaveTerminal(env, ok, es, row)) == Events(es)
    ensures Charges(SaveTerminal(env, ok, es, row)) == Charges(es)
  {
    OneSilent(es, PersistFailed);
    SaveIsSilent(env, ok.0, es, row);
    SaveIsSilent(env, ok.1, es + [PersistFailed], row);
  }

  lemma PublishSpeaks(ok: bool, es: seq<Effect>, event: Event)
    ensures Events(Publish(ok, es, event)) == Events(es) + if ok then [event] else []
    ensures Charges(Publish(ok, es, event)) == Charges(es)
  {
    Adding(None, es, Published(event));
    Adding(None, es, PublishFailed);
  }

  lemma AbortSpeaks(env: Env, row: Row, progress: nat, es: seq<Effect>)
    requires env.publishFailed
    ensures Events(Abort(env, row, progress, es).effects) == Events(es) + [Failed]
  {
    var row' := Row(FAILED, row.output, progress);
    SaveTerminalIsSilent(env, env.saveFailed, es, row');
    PublishSpeaks(true, SaveTerminal(env, env.saveFailed, es, row'), Failed);
  }

  /** How often a call of `consume` deducts. */
  function Deductions(env: Env): nat {
    if env.credits then env.consume.Deductions() else 0
  }

  lemma AttemptAdds(a: Attempt, stored: Option<Row>, es: seq<Effect>)
    ensures var es' := Attempted(a, es);
            && Events(es') == Events(es) && RowAfter(stored, es') == RowAfter(stored, es)
            && Charges(es') == Charges(es) + if a.Deducts() then 1 else 0
  {
    Adding(stored, es, Charged);
    assert Events(es) + [] == Events(es);
  }

  lemma ChargeAdds(env: Env, stored: Option<Row>, es: seq<Effect>)
    ensures var es' := Charge(env, es);
            && Events(es') == Events(es) && RowAfter(stored, es') == RowAfter(stored, es)
            && Charges(es') == Charges(es) + Deductions(env)
  {
    var first, second := env.consume.first, env.consume.second;
    AttemptAdds(first, stored, es);
    if env.credits && first.Retried() {
      AttemptAdds(second, stored, Attempted(first, es));
    }
  }

  /** The number of phases that were entered, and how the delivery ended. */
  ghost predicate Shaped(r: Result, phases: nat, terminal: Event) {
    && phases <= 3 && !terminal.Progress?
    && Events(r.effects) == PHASES[..phases] + [terminal]
    && (r.raised ==> terminal == Failed)
  }

  lemma CompleteShape(env: Env, row: Row, es: seq<Effect>) returns (terminal: Event)
    requires PublishingWorks(env) && row.status == PROCESSING && Events(es) == PHASES
    ensures var r := Complete(env, row, es); Shaped(r, 3, terminal) && terminal == Completed(env.key) && !r.raised
  {
    terminal := Completed(env.key);
    var done := Row(COMPLETED, env.key, 100);
    ChargeAdds(env, None, es);
    SaveTerminalIsSilent(env, env.saveCompleted, Charge(env, es), done);
    PublishSpeaks(true, SaveTerminal(env, env.saveCompleted, Charge(env, es), done), terminal);
    assert PHASES[..3] == PHASES;
  }

  lemma UploadShape(env: Env, row: Row, es: seq<Effect>) returns (phases: nat, terminal: Event)
    requires PublishingWorks(env) && row.status == PROCESSING && Events(es) == PHASES[..2]
    ensures var r := Upload(env, row, es); Shaped(r, phases, terminal) && r.raised == (terminal == Failed) && r.raised == !env.upload
  {
    phases, terminal := 3, Failed;
    var es' := Publish(true, es, Progress(75));
    PublishSpeaks(true, es, Progress(75));
    assert PHASES[..2] + [Progress(75)] == PHASES == PHASES[..3];
    var es'' := Save(env, env.save75, es', row.(progress := 75));
    SaveIsSilent(env, env.save75, es', row.(progress := 75));
    if env.upload {
      Adding(None, es'', Uploaded(env.key));
      assert PHASES + [] == PHASES;
      terminal := CompleteShape(env, row, es'' + [Uploaded(env.key)]);
    } else {
      AbortSpeaks(env, row, 75, es'');
    }
  }

  lemma ConvertShape(env: Env, row: Row, es: seq<Effect>) returns (phases: nat, terminal: Event)
    requires PublishingWorks(env) && row.status == PROCESSING && Events(es) == PHASES[..1]
    ensures var r := Convert(env, row, es);
            Shaped(r, phases, terminal) && r.raised == (terminal == Failed) && r.raised == !(env.convert && env.upload)
  {
    phases, terminal := 2, Failed;
    var es' := Publish(true, es, Progress(50));
    PublishSpeaks(true, es, Progress(50));
    assert PHASES[..1] + [Progress(50)] == PHASES[..2];
    var es'' := Save(env, env.save50, es', row.(progress := 50));
    SaveIsSilent(env, env.save50, es', row.(progress := 50));
    if env.convert {
      phases, terminal := UploadShape(env, row, es'');
    } else {
      AbortSpeaks(env, row, 50, es'');
    }
  }

  lemma DownloadShape(env: Env, row: Row, es: seq<Effect>) returns (phases: nat, terminal: Event)
    requires PublishingWorks(env) && row.status == PROCESSING && Events(es) == []
    ensures var r := Download(env, row, es);
            && Shaped(r, phases, terminal) && r.raised == (terminal == Failed)
            && r.raised == !(env.download && env.convert && env.upload)
  {
    phases, terminal := 1, Failed;
    var es' := Publish(true, es, Progress(25));
    PublishSpeaks(true, es, Progress(25));
    assert [] + [Progress(25)] == PHASES[..1];
    var es'' := Save(env, env.save25, es', row.(progress := 25));
    SaveIsSilent(env, env.save25, es', row.(progress := 25));
    if env.download {
      phases, terminal := ConvertShape(env, row, es'');
    } else {
      AbortSpeaks(env, row, 25, es'');
    }
  }

  predicate Skips(env: Env, stored: Option<Row>) {
    env.repository && env.guardReadOk && Finished(stored)
  }

  predicate Broke(env: Env) {
    env.hasObjectKey && env.credits && env.precheck.Exhausted?
  }

  predicate StagesSucceed(env: Env) {
    env.hasObjectKey && env.prepare && env.download && env.convert && env.upload
  }

  /** With publishing working, one delivery publishes some of the three phases in order and
      then exactly one terminal event. It ends in COMPLETED exactly when the job was
      already finished or every stage succeeds, and raises exactly when a stage fails and
      the credits were not the reason. */
  lemma OneTerminalEvent(env: Env, stored: Option<Row>) returns (phases: nat, terminal: Event)
    requires PublishingWorks(env)
    ensures var r := Process(env, stored);
            && Shaped(r, phases, terminal)
            && (terminal.Completed? <==> Skips(env, stored) || (!Broke(env) && StagesSucceed(env)))
            && (r.raised <==> !Skips(env, stored) && !Broke(env) && !StagesSucceed(env))
  {
    phases, terminal := 0, Failed;
    if Skips(env, stored) {
      terminal := Completed(stored.value.output);
      ReplayShape(terminal);
    } else if !env.hasObjectKey {
      AbortShape(env, Row(PENDING, "", 0), []);
    } else {
      var es := Save(env, env.saveStart, [], Row(PROCESSING, "", 0));
      SaveIsSilent(env, env.saveStart, [], Row(PROCESSING, "", 0));
      phases, terminal := CheckCreditsShape(env, es);
    }
  }

  lemma ReplayShape(terminal: Event)
    requires terminal.Completed?
    ensures Shaped(Result(Publish(true, [], terminal), false), 0, terminal)
  {
    PublishSpeaks(true, [], terminal);
    assert PHASES[..0] + [terminal] == [terminal] == [] + [terminal];
  }

  lemma AbortShape(env: Env, row: Row, es: seq<Effect>)
    requires PublishingWorks(env) && Events(es) == []
    ensures Shaped(Abort(env, row, 0, es), 0, Failed) && Abort(env, row, 0, es).raised
  {
    AbortSpeaks(env, row, 0, es);
    assert PHASES[..0] + [Failed] == [] + [Failed];
  }

  lemma CheckCreditsShape(env: Env, es: seq<Effect>) returns (phases: nat, terminal: Event)
    requires PublishingWorks(env) && env.hasObjectKey && Events(es) == []
    ensures var r := CheckCredits(env, es);
            && Shaped(r, phases, terminal)
            && (terminal.Completed? <==> !Broke(env) && StagesSucceed(env))
            && (r.raised <==> !Broke(env) && !StagesSucceed(env))
  {
    if Broke(env) {
      phases, terminal := 0, Failed;
      var failed := Row(FAILED, "", 100);
      SaveTerminalIsSilent(env, env.saveExhausted, es, failed);
      PublishSpeaks(true, SaveTerminal(env, env.saveExhausted, es, failed), Failed);
      assert PHASES[..0] + [Failed] == [] + [Failed];
    } else if !env.prepare {
      phases, terminal := 0, Failed;
      AbortShape(env, Row(PROCESSING, "", 0), es);
    } else {
      phases, terminal := DownloadShape(env, Row(PROCESSING, "", 0), es);
    }
  }

  // ---------------------------------------------------------------------------
  // Stored before announced, charged at most once
  // ---------------------------------------------------------------------------

  predicate TerminalSaveWorks(env: Env) {
    env.repository && (env.saveCompleted.0 || env.saveCompleted.1)
  }

  predicate FailureSaveWorks(env: Env) {
    env.repository && (env.saveFailed.0 || env.saveFailed.1)
  }

  /** Some progress was stored on the way, by the start of stage `n`. */
  predicate Touched(env: Env, n: nat) {
    env.repository && (env.saveStart || (n > 0 && env.save25) || (n > 1 && env.save50) || (n > 2 && env.save75))
  }

  /** The row is COMPLETED with this output. */
  predicate Backs(row: Option<Row>, output: string) {
    Finished(row) && row.value.output == output
  }

  /** What decides, before the delivery, whether its COMPLETED will be backed: the row exists,
      and the terminal row will be stored; or the row says so already and nothing will have
      been stored over it. */
  predicate WillBack(env: Env, stored: Option<Row>, output: string) {
    && stored.Some?
    && (TerminalSaveWorks(env) || ((Skips(env, stored) || !Touched(env, 3)) && Backs(stored, output)))
  }

  /** Every announcement of COMPLETED so far was backed when made exactly if it will be. */
  ghost predicate Backed(env: Env, stored: Option<Row>, es: seq<Effect>) {
    es != [] ==>
    && Backed(env, stored, Most(es))
    && (Last(es).Published? && Last(es).event.Completed? ==>
          (Backs(RowAfter(stored, Most(es)), Last(es).event.output) <==> WillBack(env, stored, Last(es).event.output)))
  }

  /** Backed so far, with at most `charges` deductions. */
  ghost predicate Sound(env: Env, stored: Option<Row>, es: seq<Effect>, charges: nat) {
    Backed(env, stored, es) && Charges(es) <= charges
  }

  /** Before completion, the row is as it was, or unfinished because something was stored. */
  ghost predicate Trail(stored: Option<Row>, es: seq<Effect>, touched: bool) {
    && RowAfter(stored, es).Some? == stored.Some?
    && if touched then !Finished(RowAfter(stored, es)) else RowAfter(stored, es) == stored
  }

  lemma QuietIsSound(env: Env, stored: Option<Row>, es: seq<Effect>, e: Effect, charges: nat)
    requires Sound(env, stored, es, charges) && !e.Charged? && !(e.Published? && e.event.Completed?)
    ensures Sound(env, stored, es + [e], charges)
  {
    Adding(stored, es, e);
  }

  lemma SaveIsSound(env: Env, stored: Option<Row>, ok: bool, es: seq<Effect>, row: Row, charges: nat)
    requires Sound(env, stored, es, charges)
    ensures Sound(env, stored, Save(env, ok, es, row), charges)
    ensures RowAfter(stored, Save(env, ok, es, row))
         == if env.repository && ok && RowAfter(stored, es).Some? then Some(row) else RowAfter(stored, es)
  {
    QuietIsSound(env, stored, es, Persisted(row), charges);
    QuietIsSound(env, stored, es, PersistFailed, charges);
    Adding(stored, es, Persisted(row));
    Adding(stored, es, PersistFailed);
  }

  lemma SaveTerminalIsSound(env: Env, stored: Option<Row>, ok: (bool, bool), es: seq<Effect>, row: Row, charges: nat)
    requires Sound(env, stored, es, charges)
    ensures Sound(env, stored, SaveTerminal(env, ok, es, row), charges)
    ensures RowAfter(stored, SaveTerminal(env, ok, es, row))
         == if env.repository && (ok.0 || ok.1) && RowAfter(stored, es).Some? then Some(row) else RowAfter(stored, es)
  {
    QuietIsSound(env, stored, es, PersistFailed, charges);
    Adding(stored, es, PersistFailed);
    SaveIsSound(env, stored, ok.0, es, row, charges);
    SaveIsSound(env, stored, ok.1, es + [PersistFailed], row, charges);
  }

  lemma PublishIsSound(env: Env, stored: Option<Row>, ok: bool, es: seq<Effect>, event: Event, charges: nat)
    requires Sound(env, stored, es, charges) && !event.Completed?
    ensures Sound(env, stored, Publish(ok, es, event), charges)
    ensures RowAfter(stored, Publish(ok, es, event)) == RowAfter(stored, es)
  {
    QuietIsSound(env, stored, es, Published(event), charges);
    QuietIsSound(env, stored, es, PublishFailed, charges);
    Adding(stored, es, Published(event));
    Adding(stored, es, PublishFailed);
  }

  lemma AbortIsSound(env: Env, stored: Option<Row>, row: Row, progress: nat, es: seq<Effect>, charges: nat)
    requires Sound(env, stored, es, charges)
    ensures Sound(env, stored, Abort(env, row, progress, es).effects, charges)
    ensures RowAfter(stored, Abort(env, row, progress, es).effects) ==
            if FailureSaveWorks(env) && RowAfter(stored, es).Some?
            then Some(Row(FAILED, row.output, progress)) else RowAfter(stored, es)
  {
    var row' := Row(FAILED, row.output, progress);
    SaveTerminalIsSound(env, stored, env.saveFailed, es, row', charges);
    PublishIsSound(env, stored, env.publishFailed, SaveTerminal(env, env.saveFailed, es, row'), Failed, charges);
  }

  /** What decides, before the delivery, whether a delivery that deducts leaves the row
      COMPLETED with an output: the row exists, the terminal row is stored (or was there and
      is left alone), and no later failure is stored over it. */
  predicate EndsFinished(env: Env, stored: Option<Row>) {
    && stored.Some?
    && (TerminalSaveWorks(env) || (!Touched(env, 3) && Finished(stored)))
    && (env.publishCompleted || !FailureSaveWorks(env))
  }

  ghost predicate Decided(env: Env, stored: Option<Row>, r: Result) {
    Charges(r.effects) > 0 ==> (Finished(RowAfter(stored, r.effects)) <==> EndsFinished(env, stored))
  }

  lemma CompleteIsSound(env: Env, stored: Option<Row>, row: Row, es: seq<Effect>)
    requires Sound(env, stored, es, 0) && env.key != "" && !Skips(env, stored)
    requires row.status == PROCESSING ==> Trail(stored, es, Touched(env, 3))
    ensures Sound(env, stored, Complete(env, row, es).effects, 2)
    ensures Decided(env, stored, Complete(env, row, es))
  {
    if row.status != PROCESSING {
      AbortIsSound(env, stored, row, 75, es, 0);
    } else {
      var done := Row(COMPLETED, env.key, 100);
      PaidAndSaved(env, stored, es);
      var es' := SaveTerminal(env, env.saveCompleted, Charge(env, es), done);
      var es'' := Publish(env.publishCompleted, es', Completed(env.key));
      AnnounceIsSound(env, stored, es');
      AbortIsSound(env, stored, done, 100, es'', 2);
    }
  }

  lemma AnnounceIsSound(env: Env, stored: Option<Row>, es: seq<Effect>)
    requires Sound(env, stored, es, 2)
    requires Backs(RowAfter(stored, es), env.key) <==> WillBack(env, stored, env.key)
    ensures var es' := Publish(env.publishCompleted, es, Completed(env.key));
            Sound(env, stored, es', 2) && RowAfter(stored, es') == RowAfter(stored, es)
  {
    Adding(stored, es, Published(Completed(env.key)));
    Adding(stored, es, PublishFailed);
  }

  /** After the deduction and the terminal persist. */
  lemma PaidAndSaved(env: Env, stored: Option<Row>, es: seq<Effect>)
    requires Sound(env, stored, es, 0) && env.key != "" && Trail(stored, es, Touched(env, 3)) && !Skips(env, stored)
    ensures var es' := SaveTerminal(env, env.saveCompleted, Charge(env, es), Row(COMPLETED, env.key, 100));
            && Sound(env, stored, es', 2) && RowAfter(stored, es').Some? == stored.Some?
            && (Backs(RowAfter(stored, es'), env.key) <==> WillBack(env, stored, env.key))
            && (Finished(RowAfter(stored, es')) <==>
                  stored.Some? && (TerminalSaveWorks(env) || (!Touched(env, 3) && Finished(stored))))
  {
    ChargeIsSound(env, stored, es);
    ChargeAdds(env, stored, es);
    SaveTerminalIsSound(env, stored, env.saveCompleted, Charge(env, es), Row(COMPLETED, env.key, 100), 2);
  }

  lemma AttemptIsSound(a: Attempt, env: Env, stored: Option<Row>, es: seq<Effect>, charges: nat)
    requires Sound(env, stored, es, charges)
    ensures Sound(env, stored, Attempted(a, es), charges + 1)
  {
    Adding(stored, es, Charged);
  }

  lemma ChargeIsSound(env: Env, stored: Option<Row>, es: seq<Effect>)
    requires Sound(env, stored, es, 0)
    ensures Sound(env, stored, Charge(env, es), 2)
  {
    AttemptIsSound(env.consume.first, env, stored, es, 0);
    AttemptIsSound(env.consume.second, env, stored, Attempted(env.consume.first, es), 1);
  }

  /** One stage: announced, mirrored on the row, and perhaps aborted. */
  lemma StageIsSound(env: Env, stored: Option<Row>, row: Row, es: seq<Effect>, n: nat, percent: nat, ok: bool, save: bool)
    requires Sound(env, stored, es, 0) && row.status != COMPLETED && (row.status == PROCESSING ==> Trail(stored, es, Touched(env, n)))
    requires Touched(env, n + 1) == (Touched(env, n) || (env.repository && save))
    ensures var es' := Publish(ok, es, Progress(percent));
            var es'' := Save(env, save, es', row.(progress := percent));
            && Sound(env, stored, Abort(env, row, percent, es').effects, 0)
            && Sound(env, stored, Abort(env, row, percent, es'').effects, 0)
            && Sound(env, stored, es'', 0)
            && (row.status == PROCESSING ==> Trail(stored, es'', Touched(env, n + 1)))
  {
    var es' := Publish(ok, es, Progress(percent));
    PublishIsSound(env, stored, ok, es, Progress(percent), 0);
    AbortIsSound(env, stored, row, percent, es', 0);
    SaveIsSound(env, stored, save, es', row.(progress := percent), 0);
    AbortIsSound(env, stored, row, percent, Save(env, save, es', row.(progress := percent)), 0);
  }

  lemma UploadIsSound(env: Env, stored: Option<Row>, row: Row, es: seq<Effect>)
    requires Sound(env, stored, es, 0) && env.key != "" && row.status != COMPLETED && !Skips(env, stored)
    requires row.status == PROCESSING ==> Trail(stored, es, Touched(env, 2))
    ensures Sound(env, stored, Upload(env, row, es).effects, 2)
    ensures Decided(env, stored, Upload(env, row, es))
  {
    StageIsSound(env, stored, row, es, 2, 75, env.publish75, env.save75);
    var es'' := Save(env, env.save75, Publish(env.publish75, es, Progress(75)), row.(progress := 75));
    QuietIsSound(env, stored, es'', Uploaded(env.key), 0);
    Adding(stored, es'', Uploaded(env.key));
    CompleteIsSound(env, stored, row, es'' + [Uploaded(env.key)]);
  }

  lemma ConvertIsSound(env: Env, stored: Option<Row>, row: Row, es: seq<Effect>)
    requires Sound(env, stored, es, 0) && env.key != "" && row.status != COMPLETED && !Skips(env, stored)
    requires row.status == PROCESSING ==> Trail(stored, es, Touched(env, 1))
    ensures Sound(env, stored, Convert(env, row, es).effects, 2)
    ensures Decided(env, stored, Convert(env, row, es))
  {
    StageIsSound(env, stored, row, es, 1, 50, env.publish50, env.save50);
    UploadIsSound(env, stored, row, Save(env, env.save50, Publish(env.publish50, es, Progress(50)), row.(progress := 50)));
  }

  lemma DownloadIsSound(env: Env, stored: Option<Row>, row: Row, es: seq<Effect>)
    requires Sound(env, stored, es, 0) && env.key != "" && row.status != COMPLETED && !Skips(env, stored)
    requires row.status == PROCESSING ==> Trail(stored, es, Touched(env, 0))
    ensures Sound(env, stored, Prepare(env, row, es).effects, 2)
    ensures Decided(env, stored, Prepare(env, row, es))
  {
    AbortIsSound(env, stored, row, 0, es, 0);
    StageIsSound(env, stored, row, es, 0, 25, env.publish25, env.save25);
    ConvertIsSound(env, stored, row, Save(env, env.save25, Publish(env.publish25, es, Progress(25)), row.(progress := 25)));
  }

  lemma CheckCreditsIsSound(env: Env, stored: Option<Row>, es: seq<Effect>)
    requires Sound(env, stored, es, 0) && env.key != "" && !Skips(env, stored)
    requires Trail(stored, es, Touched(env, 0))
    ensures Sound(env, stored, CheckCredits(env, es).effects, 2)
    ensures Decided(env, stored, CheckCredits(env, es))
  {
    if env.credits && env.precheck.Exhausted? {
      var failed := Row(FAILED, "", 100);
      SaveTerminalIsSound(env, stored, env.saveExhausted, es, failed, 0);
      var broke := SaveTerminal(env, env.saveExhausted, es, failed);
      PublishIsSound(env, stored, env.publishExhausted, broke, Failed, 0);
      DownloadIsSound(env, stored, failed, Publish(env.publishExhausted, broke, Failed));
    } else {
      DownloadIsSound(env, stored, Row(PROCESSING, "", 0), es);
    }
  }

  lemma ReplayIsSound(env: Env, stored: Option<Row>)
    requires Skips(env, stored)
    ensures Sound(env, stored, Publish(env.publishReplay, [], Completed(stored.value.output)), 0)
  {
    Adding(stored, [], Published(Completed(stored.value.output)));
    Adding(stored, [], PublishFailed);
  }

  lemma ProcessIsSound(env: Env, stored: Option<Row>)
    requires env.key != ""
    ensures Sound(env, stored, Process(env, stored).effects, 2)
    ensures Decided(env, stored, Process(env, stored))
  {
    if Skips(env, stored) {
      ReplayIsSound(env, stored);
    } else if !env.hasObjectKey {
      AbortIsSound(env, stored, Row(PENDING, "", 0), 0, [], 0);
    } else {
      SaveIsSound(env, stored, env.saveStart, [], Row(PROCESSING, "", 0), 0);
      CheckCreditsIsSound(env, stored, Save(env, env.saveStart, [], Row(PROCESSING, "", 0)));
    }
  }

  lemma {:induction false} BackedAt(env: Env, stored: Option<Row>, es: seq<Effect>, i: nat)
    requires Backed(env, stored, es) && i < |es| && es[i].Published? && es[i].event.Completed?
    ensures Backs(RowAfter(stored, es[..i]), es[i].event.output) <==> WillBack(env, stored, es[i].event.output)
  {
    if i < |es| - 1 {
      BackedAt(env, stored, Most(es), i);
      assert Most(es)[..i] == es[..i];
    }
  }

  /** Not deleted by the time `n` effects have happened. */
  predicate Spared(deleted: Option<nat>, n: nat) {
    deleted.None? || n < deleted.value
  }

  /** For every pattern of failures, every stored row or none, and a deletion at any point:
      when COMPLETED is announced, the row is stored with that output if and only if it was
      there, has not been deleted, and the terminal row could be stored (or it said so
      already and nothing was stored over it). */
  lemma StoredBeforeAnnounced(env: Env, stored: Option<Row>, deleted: Option<nat>, i: nat)
    requires env.key != ""
    ensures var es := Process(env, stored).effects;
            i < |es| && es[i].Published? && es[i].event.Completed? ==>
              (Backs(RowWhen(stored, es[..i], deleted), es[i].event.output)
               <==> Spared(deleted, i) && WillBack(env, stored, es[i].event.output))
  {
    ProcessIsSound(env, stored);
    var es := Process(env, stored).effects;
    if i < |es| && es[i].Published? && es[i].event.Completed? {
      BackedWhen(env, stored, es, deleted, i);
    }
  }

  lemma BackedWhen(env: Env, stored: Option<Row>, es: seq<Effect>, deleted: Option<nat>, i: nat)
    requires Backed(env, stored, es) && i < |es| && es[i].Published? && es[i].event.Completed?
    ensures Backs(RowWhen(stored, es[..i], deleted), es[i].event.output)
            <==> Spared(deleted, i) && WillBack(env, stored, es[i].event.output)
  {
    BackedAt(env, stored, es, i);
    if !Spared(deleted, i) {
      RowsAreOnlyUpdated(None, es[..i][deleted.value..]);
    }
  }

  /** One delivery deducts at most twice, and what it deducts is wasted, leaving the row without
      a result, if and only if `EndsFinished` fails or the row is deleted. */
  lemma WastedExactlyWhen(env: Env, stored: Option<Row>, deleted: Option<nat>)
    requires env.key != ""
    ensures var es := Process(env, stored).effects;
            && Charges(es) <= 2
            && (Charges(es) > 0 ==>
                  (!Finished(RowWhen(stored, es, deleted)) <==> !Spared(deleted, |es|) || !EndsFinished(env, stored)))
  {
    var es := Process(env, stored).effects;
    ProcessIsSound(env, stored);
    if !Spared(deleted, |es|) {
      RowsAreOnlyUpdated(None, es[deleted.value..]);
    }
  }

  // ---------------------------------------------------------------------------
  // How often one delivery deducts
  // ---------------------------------------------------------------------------

  /** The stages that come before the deduction all succeed, and so do their announcements. */
  predicate StagesReach(env: Env) {
    && env.prepare && env.publish25 && env.download && env.publish50 && env.convert && env.publish75 && env.upload
  }

  /** The delivery gets as far as calling `consume`. */
  predicate ReachesCharge(env: Env, stored: Option<Row>) {
    !Skips(env, stored) && env.hasObjectKey && !Broke(env) && StagesReach(env)
  }

  lemma AbortCharges(env: Env, row: Row, progress: nat, es: seq<Effect>)
    ensures Charges(Abort(env, row, progress, es).effects) == Charges(es)
  {
    var row' := Row(FAILED, row.output, progress);
    SaveTerminalIsSilent(env, env.saveFailed, es, row');
    PublishSpeaks(env.publishFailed, SaveTerminal(env, env.saveFailed, es, row'), Failed);
  }

  lemma CompleteCharges(env: Env, row: Row, es: seq<Effect>)
    ensures Charges(Complete(env, row, es).effects) == Charges(es) + if row.status == PROCESSING then Deductions(env) else 0
  {
    if row.status != PROCESSING {
      AbortCharges(env, row, 75, es);
    } else {
      var done := Row(COMPLETED, env.key, 100);
      ChargeAdds(env, None, es);
      SaveTerminalIsSilent(env, env.saveCompleted, Charge(env, es), done);
      var es' := SaveTerminal(env, env.saveCompleted, Charge(env, es), done);
      PublishSpeaks(env.publishCompleted, es', Completed(env.key));
      AbortCharges(env, done, 100, Publish(env.publishCompleted, es', Completed(env.key)));
    }
  }

  /** A stage deducts nothing, aborted or not. */
  lemma StageCharges(env: Env, row: Row, es: seq<Effect>, percent: nat, ok: bool, save: bool)
    ensures var es' := Publish(ok, es, Progress(percent));
            var es'' := Save(env, save, es', row.(progress := percent));
            && Charges(Abort(env, row, percent, es').effects) == Charges(es)
            && Charges(Abort(env, row, percent, es'').effects) == Charges(es)
            && Charges(es'') == Charges(es)
  {
    var es' := Publish(ok, es, Progress(percent));
    var es'' := Save(env, save, es', row.(progress := percent));
    PublishSpeaks(ok, es, Progress(percent));
    SaveIsSilent(env, save, es', row.(progress := percent));
    AbortCharges(env, row, percent, es');
    AbortCharges(env, row, percent, es'');
  }

  lemma UploadCharges(env: Env, row: Row, es: seq<Effect>)
    ensures Charges(Upload(env, row, es).effects)
            == Charges(es) + if row.status == PROCESSING && env.publish75 && env.upload then Deductions(env) else 0
  {
    StageCharges(env, row, es, 75, env.publish75, env.save75);
    var es'' := Save(env, env.save75, Publish(env.publish75, es, Progress(75)), row.(progress := 75));
    Adding(None, es'', Uploaded(env.key));
    CompleteCharges(env, row, es'' + [Uploaded(env.key)]);
  }

  lemma PrepareCharges(env: Env, row: Row, es: seq<Effect>)
    ensures Charges(Prepare(env, row, es).effects)
            == Charges(es) + if row.status == PROCESSING && StagesReach(env) then Deductions(env) else 0
  {
    AbortCharges(env, row, 0, es);
    StageCharges(env, row, es, 25, env.publish25, env.save25);
    var es1 := Save(env, env.save25, Publish(env.publish25, es, Progress(25)), row.(progress := 25));
    StageCharges(env, row, es1, 50, env.publish50, env.save50);
    var es2 := Save(env, env.save50, Publish(env.publish50, es1, Progress(50)), row.(progress := 50));
    UploadCharges(env, row, es2);
  }

  lemma CheckCreditsCharges(env: Env, es: seq<Effect>)
    requires env.hasObjectKey
    ensures Charges(CheckCredits(env, es).effects)
            == Charges(es) + if !Broke(env) && StagesReach(env) then Deductions(env) else 0
  {
    if Broke(env) {
      var failed := Row(FAILED, "", 100);
      SaveTerminalIsSilent(env, env.saveExhausted, es, failed);
      var broke := SaveTerminal(env, env.saveExhausted, es, failed);
      PublishSpeaks(env.publishExhausted, broke, Failed);
      PrepareCharges(env, failed, Publish(env.publishExhausted, broke, Failed));
    } else {
      PrepareCharges(env, Row(PROCESSING, "", 0), es);
    }
  }

  /** A delivery deducts exactly what its call of `consume` deducts, if it gets that far. */
  lemma DeductsExactly(env: Env, stored: Option<Row>)
    ensures Charges(Process(env, stored).effects) == if ReachesCharge(env, stored) then Deductions(env) else 0
  {
    if Skips(env, stored) {
      ReplayCharges(env, stored);
    } else if !env.hasObjectKey {
      KeylessCharges(env, stored);
    } else {
      StartCharges(env, stored);
    }
  }

  lemma KeylessCharges(env: Env, stored: Option<Row>)
    requires !Skips(env, stored) && !env.hasObjectKey
    ensures Charges(Process(env, stored).effects) == 0
  {
    AbortCharges(env, Row(PENDING, "", 0), 0, []);
  }

  lemma StartCharges(env: Env, stored: Option<Row>)
    requires !Skips(env, stored) && env.hasObjectKey
    ensures Charges(Process(env, stored).effects) == if !Broke(env) && StagesReach(env) then Deductions(env) else 0
  {
    var es := Save(env, env.saveStart, [], Row(PROCESSING, "", 0));
    SaveIsSilent(env, env.saveStart, [], Row(PROCESSING, "", 0));
    CheckCreditsCharges(env, es);
  }

  lemma ReplayCharges(env: Env, stored: Option<Row>)
    requires Skips(env, stored)
    ensures Charges(Process(env, stored).effects) == 0
  {
    PublishSpeaks(env.publishReplay, [], Completed(stored.value.output));
  }

  /** One delivery deducts twice exactly when it calls `consume`, the first attempt commits and
      then loses its connection, and the second commits as well. */
  lemma DoubleExactlyWhen(env: Env, stored: Option<Row>)
    ensures Charges(Process(env, stored).effects) == 2 <==>
            ReachesCharge(env, stored) && env.credits && env.consume.first.CommitsThenDrops? && env.consume.second.Deducts()
  {
    DeductsExactly(env, stored);
  }

  /** Nothing about the result shows it: the row is COMPLETED with its output, nothing raised,
      and the user has paid twice. */
  lemma PaidTwiceForOneResult(env: Env, stored: Option<Row>)
    requires PublishingWorks(env) && StagesSucceed(env) && !Broke(env) && !Skips(env, stored)
    requires env.key != "" && stored.Some? && TerminalSaveWorks(env)
    requires env.credits && env.consume == Consume(CommitsThenDrops, Commits)
    ensures var r := Process(env, stored);
            Charges(r.effects) == 2 && Finished(RowAfter(stored, r.effects)) && !r.raised
  {
    DoubleExactlyWhen(env, stored);
    ProcessIsSound(env, stored);
    var phases, terminal := OneTerminalEvent(env, stored);
  }

  /** The guarantee fails when the row is gone: with every call working, COMPLETED is
      announced, and no row is stored or left. */
  lemma MissingRowIsAnnounced(env: Env)
    requires PublishingWorks(env) && StagesSucceed(env) && !Broke(env)
    ensures var es := Process(env, None).effects;
            Events(es) != [] && Last(Events(es)).Completed? && RowAfter(None, es) == None
  {
    var phases, terminal := OneTerminalEvent(env, None);
    RowsAreOnlyUpdated(None, Process(env, None).effects);
  }

  // ---------------------------------------------------------------------------
  // What comes before what
  // ---------------------------------------------------------------------------

  /** What must have happened before an effect: nothing is charged, stored as COMPLETED or
      announced as completed before the output is uploaded under that very key, and progress
      is stored right after it was announced. */
  predicate Caused(es: seq<Effect>, e: Effect) {
    match e
    case Charged => exists k :: 0 <= k < |es| && es[k].Uploaded?
    case Published(Completed(key)) => Uploaded(key) in es
    case Persisted(row) =>
      if row.status == COMPLETED then Uploaded(row.output) in es
      else if row.status == PROCESSING then
        row.output == "" && (row.progress > 0 ==> es != [] && Last(es) == Published(Progress(row.progress)))
      else row.status == FAILED
    case _ => true
  }

  /** Every effect came after its causes; then the same holds of every prefix, that is after a
      crash at any point. */
  predicate InOrder(es: seq<Effect>) {
    forall i :: 0 <= i < |es| ==> Caused(es[..i], es[i])
  }

  lemma InOrderAdds(es: seq<Effect>, e: Effect)
    requires InOrder(es) && Caused(es, e)
    ensures InOrder(es + [e])
  {
    forall i | 0 <= i < |es + [e]| ensures Caused((es + [e])[..i], (es + [e])[i]) {
      assert (es + [e])[..i] == es[..i];
      if i == |es| {
        assert es[..i] == es;
      }
    }
  }

  lemma OrderOfPrefixes(es: seq<Effect>, n: nat)
    requires InOrder(es) && n <= |es|
    ensures InOrder(es[..n])
  {
    assert forall i :: 0 <= i < n ==> es[..n][..i] == es[..i];
  }

  lemma SaveInOrder(env: Env, ok: bool, es: seq<Effect>, row: Row)
    requires InOrder(es) && Caused(es, Persisted(row))
    ensures InOrder(Save(env, ok, es, row)) && (forall k :: Uploaded(k) in es ==> Uploaded(k) in Save(env, ok, es, row))
  {
    InOrderAdds(es, Persisted(row));
    InOrderAdds(es, PersistFailed);
  }

  lemma SaveTerminalInOrder(env: Env, ok: (bool, bool), es: seq<Effect>, row: Row)
    requires InOrder(es) && Caused(es, Persisted(row)) && row.status != PROCESSING
    ensures InOrder(SaveTerminal(env, ok, es, row))
    ensures forall k :: Uploaded(k) in es ==> Uploaded(k) in SaveTerminal(env, ok, es, row)
  {
    InOrderAdds(es, PersistFailed);
    if env.repository && !ok.0 {
      SaveInOrder(env, ok.1, es + [PersistFailed], row);
    } else {
      SaveInOrder(env, ok.0, es, row);
    }
  }

  lemma PublishInOrder(ok: bool, es: seq<Effect>, event: Event)
    requires InOrder(es) && Caused(es, Published(event))
    ensures InOrder(Publish(ok, es, event))
  {
    InOrderAdds(es, if ok then Published(event) else PublishFailed);
  }

  lemma AbortInOrder(env: Env, row: Row, progress: nat, es: seq<Effect>)
    requires InOrder(es)
    ensures InOrder(Abort(env, row, progress, es).effects)
  {
    var row' := Row(FAILED, row.output, progress);
    SaveTerminalInOrder(env, env.saveFailed, es, row');
    PublishInOrder(env.publishFailed, SaveTerminal(env, env.saveFailed, es, row'), Failed);
  }

  lemma AttemptInOrder(a: Attempt, es: seq<Effect>, key: string)
    requires InOrder(es) && Uploaded(key) in es
    ensures InOrder(Attempted(a, es)) && Uploaded(key) in Attempted(a, es)
  {
    InOrderAdds(es, Charged);
  }

  lemma ChargeInOrder(env: Env, es: seq<Effect>)
    requires InOrder(es) && Uploaded(env.key) in es
    ensures InOrder(Charge(env, es)) && Uploaded(env.key) in Charge(env, es)
  {
    AttemptInOrder(env.consume.first, es, env.key);
    AttemptInOrder(env.consume.second, Attempted(env.consume.first, es), env.key);
  }

  lemma CompleteInOrder(env: Env, row: Row, es: seq<Effect>)
    requires InOrder(es) && Uploaded(env.key) in es
    ensures InOrder(Complete(env, row, es).effects)
  {
    if row.status != PROCESSING {
      AbortInOrder(env, row, 75, es);
    } else {
      var done := Row(COMPLETED, env.key, 100);
      ChargeInOrder(env, es);
      var es' := SaveTerminal(env, env.saveCompleted, Charge(env, es), done);
      SaveTerminalInOrder(env, env.saveCompleted, Charge(env, es), done);
      PublishInOrder(env.publishCompleted, es', Completed(env.key));
      AbortInOrder(env, done, 100, Publish(env.publishCompleted, es', Completed(env.key)));
    }
  }

  /** One stage, aborted or not. */
  lemma StageInOrder(env: Env, row: Row, es: seq<Effect>, percent: nat, ok: bool, save: bool)
    requires InOrder(es) && percent > 0 && row.output == "" && (row.status == PROCESSING || row.status == FAILED)
    ensures var es' := Publish(ok, es, Progress(percent));
            && InOrder(Abort(env, row, percent, es').effects)
            && (ok ==>
                  var es'' := Save(env, save, es', row.(progress := percent));
                  InOrder(Abort(env, row, percent, es'').effects) && InOrder(es''))
  {
    var es' := Publish(ok, es, Progress(percent));
    PublishInOrder(ok, es, Progress(percent));
    AbortInOrder(env, row, percent, es');
    if ok {
      assert Last(es') == Published(Progress(percent));
      SaveInOrder(env, save, es', row.(progress := percent));
      AbortInOrder(env, row, percent, Save(env, save, es', row.(progress := percent)));
    }
  }

  lemma UploadInOrder(env: Env, row: Row, es: seq<Effect>)
    requires InOrder(es) && row.output == "" && (row.status == PROCESSING || row.status == FAILED)
    ensures InOrder(Upload(env, row, es).effects)
  {
    StageInOrder(env, row, es, 75, env.publish75, env.save75);
    if env.publish75 && env.upload {
      var es'' := Save(env, env.save75, Publish(true, es, Progress(75)), row.(progress := 75));
      InOrderAdds(es'', Uploaded(env.key));
      assert (es'' + [Uploaded(env.key)])[|es''|] == Uploaded(env.key);
      CompleteInOrder(env, row, es'' + [Uploaded(env.key)]);
    }
  }

  lemma PrepareInOrder(env: Env, row: Row, es: seq<Effect>)
    requires InOrder(es) && row.output == "" && (row.status == PROCESSING || row.status == FAILED)
    ensures InOrder(Prepare(env, row, es).effects)
  {
    AbortInOrder(env, row, 0, es);
    StageInOrder(env, row, es, 25, env.publish25, env.save25);
    if env.publish25 && env.download {
      var es1 := Save(env, env.save25, Publish(true, es, Progress(25)), row.(progress := 25));
      StageInOrder(env, row, es1, 50, env.publish50, env.save50);
      if env.publish50 && env.convert {
        UploadInOrder(env, row, Save(env, env.save50, Publish(true, es1, Progress(50)), row.(progress := 50)));
      }
    }
  }

  lemma CheckCreditsInOrder(env: Env, es: seq<Effect>)
    requires InOrder(es)
    ensures InOrder(CheckCredits(env, es).effects)
  {
    if env.credits && env.precheck.Exhausted? {
      var failed := Row(FAILED, "", 100);
      SaveTerminalInOrder(env, env.saveExhausted, es, failed);
      var broke := SaveTerminal(env, env.saveExhausted, es, failed);
      PublishInOrder(env.publishExhausted, broke, Failed);
      PrepareInOrder(env, failed, Publish(env.publishExhausted, broke, Failed));
    } else {
      PrepareInOrder(env, Row(PROCESSING, "", 0), es);
    }
  }

  /** In every delivery that is not a replay, and after a crash at any point of it, whatever
      was charged, stored as COMPLETED or announced as completed came after the upload of the
      output under that key, and stored progress right after its announcement. */
  lemma UploadedFirst(env: Env, stored: Option<Row>, cut: nat)
    requires !Skips(env, stored)
    ensures InOrder(CutAt(Process(env, stored).effects, cut))
  {
    var es := Process(env, stored).effects;
    if !env.hasObjectKey {
      AbortInOrder(env, Row(PENDING, "", 0), 0, []);
    } else {
      SaveInOrder(env, env.saveStart, [], Row(PROCESSING, "", 0));
      CheckCreditsInOrder(env, Save(env, env.saveStart, [], Row(PROCESSING, "", 0)));
    }
    if cut < |es| {
      OrderOfPrefixes(es, cut);
    }
  }

  /** The keys uploaded, in order. */
  function Uploads(es: seq<Effect>): seq<string> {
    if es == [] then []
    else Uploads(Most(es)) + if Last(es).Uploaded? then [Last(es).key] else []
  }

  lemma UploadsAdd(es: seq<Effect>, e: Effect)
    ensures Uploads(es + [e]) == Uploads(es) + if e.Uploaded? then [e.key] else []
  {
    assert (es + [e])[..|es|] == es;
  }

  lemma SaveUploads(env: Env, ok: bool, es: seq<Effect>, row: Row)
    ensures Uploads(Save(env, ok, es, row)) == Uploads(es)
  {
    UploadsAdd(es, Persisted(row));
    UploadsAdd(es, PersistFailed);
    assert Uploads(es) + [] == Uploads(es);
  }

  lemma SaveTerminalUploads(env: Env, ok: (bool, bool), es: seq<Effect>, row: Row)
    ensures Uploads(SaveTerminal(env, ok, es, row)) == Uploads(es)
  {
    UploadsAdd(es, PersistFailed);
    assert Uploads(es) + [] == Uploads(es);
    SaveUploads(env, ok.0, es, row);
    SaveUploads(env, ok.1, es + [PersistFailed], row);
  }

  lemma PublishUploads(ok: bool, es: seq<Effect>, event: Event)
    ensures Uploads(Publish(ok, es, event)) == Uploads(es)
  {
    UploadsAdd(es, Published(event));
    UploadsAdd(es, PublishFailed);
    assert Uploads(es) + [] == Uploads(es);
  }

  lemma AbortUploads(env: Env, row: Row, progress: nat, es: seq<Effect>)
    ensures Uploads(Abort(env, row, progress, es).effects) == Uploads(es)
  {
    var row' := Row(FAILED, row.output, progress);
    SaveTerminalUploads(env, env.saveFailed, es, row');
    PublishUploads(env.publishFailed, SaveTerminal(env, env.saveFailed, es, row'), Failed);
  }

  lemma AttemptUploads(a: Attempt, es: seq<Effect>)
    ensures Uploads(Attempted(a, es)) == Uploads(es)
  {
    UploadsAdd(es, Charged);
    assert Uploads(es) + [] == Uploads(es);
  }

  lemma CompleteUploads(env: Env, row: Row, es: seq<Effect>)
    ensures Uploads(Complete(env, row, es).effects) == Uploads(es)
  {
    if row.status != PROCESSING {
      AbortUploads(env, row, 75, es);
    } else {
      var done := Row(COMPLETED, env.key, 100);
      AttemptUploads(env.consume.first, es);
      AttemptUploads(env.consume.second, Attempted(env.consume.first, es));
      var es' := SaveTerminal(env, env.saveCompleted, Charge(env, es), done);
      SaveTerminalUploads(env, env.saveCompleted, Charge(env, es), done);
      PublishUploads(env.publishCompleted, es', Completed(env.key));
      AbortUploads(env, done, 100, Publish(env.publishCompleted, es', Completed(env.key)));
    }
  }

  lemma StageUploads(env: Env, row: Row, es: seq<Effect>, percent: nat, ok: bool, save: bool)
    ensures var es' := Publish(ok, es, Progress(percent));
            var es'' := Save(env, save, es', row.(progress := percent));
            && Uploads(Abort(env, row, percent, es').effects) == Uploads(es)
            && Uploads(Abort(env, row, percent, es'').effects) == Uploads(es)
            && Uploads(es'') == Uploads(es)
  {
    var es' := Publish(ok, es, Progress(percent));
    PublishUploads(ok, es, Progress(percent));
    SaveUploads(env, save, es', row.(progress := percent));
    AbortUploads(env, row, percent, es');
    AbortUploads(env, row, percent, Save(env, save, es', row.(progress := percent)));
  }

  lemma PrepareUploads(env: Env, row: Row, es: seq<Effect>)
    ensures Uploads(Prepare(env, row, es).effects) == Uploads(es) + if StagesReach(env) then [env.key] else []
  {
    assert Uploads(es) + [] == Uploads(es);
    AbortUploads(env, row, 0, es);
    StageUploads(env, row, es, 25, env.publish25, env.save25);
    var es1 := Save(env, env.save25, Publish(env.publish25, es, Progress(25)), row.(progress := 25));
    StageUploads(env, row, es1, 50, env.publish50, env.save50);
    var es2 := Save(env, env.save50, Publish(env.publish50, es1, Progress(50)), row.(progress := 50));
    StageUploads(env, row, es2, 75, env.publish75, env.save75);
    var es3 := Save(env, env.save75, Publish(env.publish75, es2, Progress(75)), row.(progress := 75));
    UploadsAdd(es3, Uploaded(env.key));
    CompleteUploads(env, row, es3 + [Uploaded(env.key)]);
  }

  lemma CheckCreditsUploads(env: Env, es: seq<Effect>)
    requires env.hasObjectKey
    ensures Uploads(CheckCredits(env, es).effects)
            == Uploads(es) + if StagesReach(env) && !(Broke(env) && env.publishExhausted) then [env.key] else []
  {
    assert Uploads(es) + [] == Uploads(es);
    if Broke(env) {
      var failed := Row(FAILED, "", 100);
      SaveTerminalUploads(env, env.saveExhausted, es, failed);
      var broke := SaveTerminal(env, env.saveExhausted, es, failed);
      PublishUploads(env.publishExhausted, broke, Failed);
      PrepareUploads(env, failed, Publish(env.publishExhausted, broke, Failed));
    } else {
      PrepareUploads(env, Row(PROCESSING, "", 0), es);
    }
  }

  /** The output is uploaded, once and under its key, exactly when guard, credits, preparation
      and the stages before it let it; an exhausted wallet stops it only if that could be
      announced. */
  lemma UploadsExactly(env: Env, stored: Option<Row>)
    ensures Uploads(Process(env, stored).effects)
            == if !Skips(env, stored) && env.hasObjectKey && StagesReach(env) && !(Broke(env) && env.publishExhausted)
               then [env.key] else []
  {
    if Skips(env, stored) {
      PublishUploads(env.publishReplay, [], Completed(stored.value.output));
    } else if !env.hasObjectKey {
      AbortUploads(env, Row(PENDING, "", 0), 0, []);
    } else {
      StartUploads(env, stored);
    }
  }

  lemma StartUploads(env: Env, stored: Option<Row>)
    requires !Skips(env, stored) && env.hasObjectKey
    ensures Uploads(Process(env, stored).effects)
            == if StagesReach(env) && !(Broke(env) && env.publishExhausted) then [env.key] else []
  {
    SaveUploads(env, env.saveStart, [], Row(PROCESSING, "", 0));
    CheckCreditsUploads(env, Save(env, env.saveStart, [], Row(PROCESSING, "", 0)));
  }

  // ---------------------------------------------------------------------------
  // How a delivery ends, and what row it leaves
  // ---------------------------------------------------------------------------

  /** The phase reached: what the stored progress says after a failure. */
  function Reached(env: Env): nat {
    if !(env.hasObjectKey && env.prepare) then 0
    else if !(env.publish25 && env.download) then 25
    else if !(env.publish50 && env.convert) then 50
    else if Broke(env) || !(env.publish75 && env.upload) then 75
    else 100
  }

  /** A failure that is stored is FAILED, with the phase reached; the output only after the
      completion. */
  ghost predicate FailedAt(env: Env, stored: Option<Row>, r: Result, progress: nat, output: string) {
    r.raised && (FailureSaveWorks(env) && stored.Some? ==> RowAfter(stored, r.effects) == Some(Row(FAILED, output, progress)))
  }

  lemma AbortLeaves(env: Env, stored: Option<Row>, row: Row, progress: nat, es: seq<Effect>)
    ensures FailedAt(env, stored, Abort(env, row, progress, es), progress, row.output)
  {
    var row' := Row(FAILED, row.output, progress);
    RowsAreOnlyUpdated(stored, es);
    Adding(stored, es, PersistFailed);
    Adding(stored, es, Persisted(row'));
    Adding(stored, es + [PersistFailed], Persisted(row'));
    var es' := SaveTerminal(env, env.saveFailed, es, row');
    Adding(stored, es', Published(Failed));
    Adding(stored, es', PublishFailed);
  }

  /** Completed and announced: COMPLETED with the output, if that could be stored. */
  ghost predicate CompletedWell(env: Env, stored: Option<Row>, r: Result) {
    !r.raised && (TerminalSaveWorks(env) && stored.Some? ==> RowAfter(stored, r.effects) == Some(Row(COMPLETED, env.key, 100)))
  }

  lemma CompleteLeaves(env: Env, stored: Option<Row>, row: Row, es: seq<Effect>)
    requires row.output == ""
    ensures var r := Complete(env, row, es);
            if row.status != PROCESSING then FailedAt(env, stored, r, 75, "")
            else if env.publishCompleted then CompletedWell(env, stored, r)
            else FailedAt(env, stored, r, 100, env.key)
  {
    if row.status != PROCESSING {
      AbortLeaves(env, stored, row, 75, es);
    } else {
      var done := Row(COMPLETED, env.key, 100);
      var paid := Charge(env, es);
      RowsAreOnlyUpdated(stored, paid);
      Adding(stored, paid, PersistFailed);
      Adding(stored, paid, Persisted(done));
      Adding(stored, paid + [PersistFailed], Persisted(done));
      var es' := SaveTerminal(env, env.saveCompleted, paid, done);
      Adding(stored, es', Published(Completed(env.key)));
      AbortLeaves(env, stored, done, 100, Publish(env.publishCompleted, es', Completed(env.key)));
    }
  }

  lemma PrepareLeaves(env: Env, stored: Option<Row>, row: Row, es: seq<Effect>)
    requires env.hasObjectKey && row.output == "" && (row.status == PROCESSING <==> !Broke(env))
    ensures var r := Prepare(env, row, es);
            if StagesReach(env) && !Broke(env) && env.publishCompleted then CompletedWell(env, stored, r)
            else FailedAt(env, stored, r, Reached(env), if Reached(env) == 100 then env.key else "")
  {
    var es25 := Publish(env.publish25, es, Progress(25));
    var es1 := Save(env, env.save25, es25, row.(progress := 25));
    var es50 := Publish(env.publish50, es1, Progress(50));
    var es2 := Save(env, env.save50, es50, row.(progress := 50));
    if !env.prepare {
      AbortLeaves(env, stored, row, 0, es);
    } else if !env.publish25 || !env.download {
      AbortLeaves(env, stored, row, 25, if env.publish25 then es1 else es25);
    } else if !env.publish50 || !env.convert {
      AbortLeaves(env, stored, row, 50, if env.publish50 then es2 else es50);
    } else {
      UploadLeaves(env, stored, row, es2);
    }
  }

  lemma UploadLeaves(env: Env, stored: Option<Row>, row: Row, es: seq<Effect>)
    requires row.output == "" && (row.status == PROCESSING <==> !Broke(env))
    ensures var r := Upload(env, row, es);
            if env.publish75 && env.upload && !Broke(env) then
              if env.publishCompleted then CompletedWell(env, stored, r) else FailedAt(env, stored, r, 100, env.key)
            else FailedAt(env, stored, r, 75, "")
  {
    var es75 := Publish(env.publish75, es, Progress(75));
    var es3 := Save(env, env.save75, es75, row.(progress := 75));
    if !env.publish75 || !env.upload {
      AbortLeaves(env, stored, row, 75, if env.publish75 then es3 else es75);
    } else {
      CompleteLeaves(env, stored, row, es3 + [Uploaded(env.key)]);
    }
  }

  /** Out of credits, and announced: FAILED at 100, and no exception. */
  ghost predicate TurnedAway(env: Env, stored: Option<Row>, r: Result) {
    && !r.raised
    && (env.repository && (env.saveExhausted.0 || env.saveExhausted.1) && stored.Some? ==>
          RowAfter(stored, r.effects) == Some(Row(FAILED, "", 100)))
  }

  lemma CheckCreditsLeaves(env: Env, stored: Option<Row>, es: seq<Effect>)
    requires env.hasObjectKey
    ensures var r := CheckCredits(env, es);
            if Broke(env) && env.publishExhausted then TurnedAway(env, stored, r)
            else if StagesReach(env) && !Broke(env) && env.publishCompleted then CompletedWell(env, stored, r)
            else FailedAt(env, stored, r, Reached(env), if Reached(env) == 100 then env.key else "")
  {
    if Broke(env) {
      var failed := Row(FAILED, "", 100);
      RowsAreOnlyUpdated(stored, es);
      Adding(stored, es, PersistFailed);
      Adding(stored, es, Persisted(failed));
      Adding(stored, es + [PersistFailed], Persisted(failed));
      var broke := SaveTerminal(env, env.saveExhausted, es, failed);
      Adding(stored, broke, Published(Failed));
      PrepareLeaves(env, stored, failed, Publish(env.publishExhausted, broke, Failed));
    } else {
      PrepareLeaves(env, stored, Row(PROCESSING, "", 0), es);
    }
  }

  /** How every delivery ends, whatever fails: a replay raises only if its event does; an
      announced lack of credits ends it quietly with FAILED at 100; if every stage and
      announcement works it returns with COMPLETED and the output; in every other case it
      raises, and the row, if that can be stored, says FAILED with the phase reached. */
  lemma RowAtTheEnd(env: Env, stored: Option<Row>)
    ensures var r := Process(env, stored);
            if Skips(env, stored) then r.raised == !env.publishReplay && RowAfter(stored, r.effects) == stored
            else if env.hasObjectKey && Broke(env) && env.publishExhausted then TurnedAway(env, stored, r)
            else if env.hasObjectKey && StagesReach(env) && !Broke(env) && env.publishCompleted then CompletedWell(env, stored, r)
            else FailedAt(env, stored, r, Reached(env), if Reached(env) == 100 then env.key else "")
  {
    if Skips(env, stored) {
      Adding(stored, [], Published(Completed(stored.value.output)));
      Adding(stored, [], PublishFailed);
    } else if !env.hasObjectKey {
      AbortLeaves(env, stored, Row(PENDING, "", 0), 0, []);
    } else {
      StartLeaves(env, stored);
    }
  }

  lemma StartLeaves(env: Env, stored: Option<Row>)
    requires !Skips(env, stored) && env.hasObjectKey
    ensures var r := Process(env, stored);
            if Broke(env) && env.publishExhausted then TurnedAway(env, stored, r)
            else if StagesReach(env) && !Broke(env) && env.publishCompleted then CompletedWell(env, stored, r)
            else FailedAt(env, stored, r, Reached(env), if Reached(env) == 100 then env.key else "")
  {
    CheckCreditsLeaves(env, stored, Save(env, env.saveStart, [], Row(PROCESSING, "", 0)));
  }

  // ---------------------------------------------------------------------------
  // Deliveries, redeliveries and crashes
  // ---------------------------------------------------------------------------

  /** One delivery of the same job, cut short by a crash after `cut` effects; `deleted` says
      whether the row is deleted before the next delivery. */
  datatype Delivery = Delivery(env: Env, cut: nat, deleted: bool)

  function Performed(d: Delivery, stored: Option<Row>): seq<Effect> {
    CutAt(Process(d.env, stored).effects, d.cut)
  }

  function CutAt(es: seq<Effect>, cut: nat): seq<Effect> {
    if cut < |es| then es[..cut] else es
  }

  /** The row the next delivery finds. */
  function Left(d: Delivery, stored: Option<Row>): Option<Row> {
    if d.deleted then None else RowAfter(stored, Performed(d, stored))
  }

  /** Deductions over a sequence of deliveries that do not overlap. */
  function TotalCharges(stored: Option<Row>, ds: seq<Delivery>): nat
    decreases |ds|
  {
    if ds == [] then 0 else Charges(Performed(ds[0], stored)) + TotalCharges(Left(ds[0], stored), ds[1..])
  }

  /** Those made by deliveries that did not leave the row finished. */
  function WastedCharges(stored: Option<Row>, ds: seq<Delivery>): nat
    decreases |ds|
  {
    if ds == [] then 0
    else
      (if Finished(Left(ds[0], stored)) then 0 else Charges(Performed(ds[0], stored)))
      + WastedCharges(Left(ds[0], stored), ds[1..])
  }

  /** The second deductions of deliveries that did leave it finished. */
  function DoubleCharges(stored: Option<Row>, ds: seq<Delivery>): nat
    decreases |ds|
  {
    if ds == [] then 0
    else
      (if Finished(Left(ds[0], stored)) && Charges(Performed(ds[0], stored)) == 2 then 1 else 0)
      + DoubleCharges(Left(ds[0], stored), ds[1..])
  }

  predicate Guarded(ds: seq<Delivery>) {
    forall i :: 0 <= i < |ds| ==> ds[i].env.repository && ds[i].env.guardReadOk
  }

  lemma {:induction false} PrefixCharges(es: seq<Effect>, n: nat)
    requires n <= |es|
    ensures Charges(es[..n]) <= Charges(es)
  {
    if n < |es| {
      assert Most(es)[..n] == es[..n];
      PrefixCharges(Most(es), n);
    } else {
      assert es[..n] == es;
    }
  }

  lemma FinishedIsKept(d: Delivery, stored: Option<Row>)
    requires d.env.repository && d.env.guardReadOk && Finished(stored)
    ensures Charges(Performed(d, stored)) == 0 && Left(d, stored) == if d.deleted then None else stored
  {
    var es := Process(d.env, stored).effects;
    assert |es| == 1 && !es[0].Charged? && !es[0].Persisted?;
    assert es[..0] == [] && es == [] + [es[0]];
    Adding(stored, [], es[0]);
    assert Performed(d, stored) == es || Performed(d, stored) == [];
  }

  /** A finished job is never charged again, however often it is redelivered, while its row
      is not deleted. */
  lemma {:induction false} FinishedForever(stored: Option<Row>, ds: seq<Delivery>)
    requires Guarded(ds) && Finished(stored) && forall i :: 0 <= i < |ds| ==> !ds[i].deleted
    ensures TotalCharges(stored, ds) == 0
    decreases |ds|
  {
    if ds != [] {
      FinishedIsKept(ds[0], stored);
      assert Guarded(ds[1..]);
      FinishedForever(stored, ds[1..]);
    }
  }

  /** Without a row, every deduction is wasted. */
  lemma {:induction false} MissingWastesAll(ds: seq<Delivery>)
    ensures TotalCharges(None, ds) == WastedCharges(None, ds)
    decreases |ds|
  {
    if ds != [] {
      RowsAreOnlyUpdated(None, Performed(ds[0], None));
      MissingWastesAll(ds[1..]);
    }
  }

  /** From a finished row on, only deliveries after its deletion deduct, and waste it. */
  lemma {:induction false} FinishedThenWasted(stored: Option<Row>, ds: seq<Delivery>)
    requires Guarded(ds) && Finished(stored)
    ensures TotalCharges(stored, ds) == WastedCharges(stored, ds)
    decreases |ds|
  {
    if ds != [] {
      FinishedIsKept(ds[0], stored);
      assert Guarded(ds[1..]);
      if ds[0].deleted {
        MissingWastesAll(ds[1..]);
      } else {
        FinishedThenWasted(stored, ds[1..]);
      }
    }
  }

  lemma PerformedCharges(d: Delivery, stored: Option<Row>)
    ensures Charges(Performed(d, stored)) <= 2
  {
    AtMostTwo(d.env, stored);
    CutCharges(Process(d.env, stored).effects, d.cut);
  }

  lemma AtMostTwo(env: Env, stored: Option<Row>)
    ensures Charges(Process(env, stored).effects) <= 2
  {
    DeductsExactly(env, stored);
  }

  lemma CutCharges(es: seq<Effect>, cut: nat)
    ensures Charges(CutAt(es, cut)) <= Charges(es)
  {
    if cut < |es| {
      PrefixCharges(es, cut);
    }
  }

  /** Over any sequence of non-overlapping deliveries, with crashes at any point and the row
      deleted at any time, the deductions beyond the first are all by deliveries that did not
      leave the row COMPLETED with an output, or the second one of a delivery whose `consume`
      committed twice (see `DoubleExactlyWhen`). */
  lemma {:induction false} ChargedOncePerResult(stored: Option<Row>, ds: seq<Delivery>)
    requires Guarded(ds)
    ensures TotalCharges(stored, ds) <= 1 + WastedCharges(stored, ds) + DoubleCharges(stored, ds)
    decreases |ds|
  {
    if ds != [] {
      assert Guarded(ds[1..]);
      PerformedCharges(ds[0], stored);
      if Finished(Left(ds[0], stored)) {
        FinishedThenWasted(Left(ds[0], stored), ds[1..]);
      } else {
        ChargedOncePerResult(Left(ds[0], stored), ds[1..]);
      }
    }
  }

  // ---------------------------------------------------------------------------
  // Overlapping deliveries
  // ---------------------------------------------------------------------------

  /** What a delivery does, given the row its guard read finds. */
  type Plan = Option<Row> -> seq<Effect>

  /** A delivery under way: the row it read, and how many effects it has had. */
  datatype Progress = Waiting | Going(read: Option<Row>, done: nat)

  /** Two deliveries of one job working on one row at the same time; `seen` is how many effects
      of the first the guard read of the second came after. */
  datatype Duo = Duo(row: Option<Row>, a: Progress, b: Progress, charges: nat, seen: nat)

  function PlanOf(plan: Plan, p: Progress): seq<Effect> {
    if p.Going? then plan(p.read) else []
  }

  /** What a delivery has done so far. */
  function DoneBy(plan: Plan, p: Progress): seq<Effect> {
    if p.Going? && p.done <= |PlanOf(plan, p)| then PlanOf(plan, p)[..p.done] else []
  }

  /** The next step of one of them: the guard read, or its next effect on the shared row. */
  function Advance(plan: Plan, p: Progress, row: Option<Row>): (Progress, Option<Row>, nat) {
    if p.Waiting? then (Going(row, 0), row, 0)
    else if p.done < |PlanOf(plan, p)| then
      var e := PlanOf(plan, p)[p.done];
      (Going(p.read, p.done + 1), Updated(row, e), if e.Charged? then 1 else 0)
    else (p, row, 0)
  }

  /** `second` says which of the two moves. */
  function Turn(pa: Plan, pb: Plan, s: Duo, second: bool): Duo {
    if second then
      var r := Advance(pb, s.b, s.row);
      Duo(r.1, s.a, r.0, s.charges + r.2, if s.b.Waiting? && s.a.Going? then s.a.done else s.seen)
    else
      var r := Advance(pa, s.a, s.row);
      Duo(r.1, r.0, s.b, s.charges + r.2, s.seen)
  }

  /** Every interleaving, from the first guard read on. */
  function Together(pa: Plan, pb: Plan, stored: Option<Row>, schedule: seq<bool>): Duo {
    if schedule == [] then Duo(stored, Going(stored, 0), Waiting, 0, 0)
    else Turn(pa, pb, Together(pa, pb, stored, schedule[..|schedule| - 1]), schedule[|schedule| - 1])
  }

  /** Neither has more to do. */
  predicate BothDone(pa: Plan, pb: Plan, s: Duo) {
    s.a.Going? && s.b.Going? && s.a.done == |PlanOf(pa, s.a)| && s.b.done == |PlanOf(pb, s.b)|
  }

  /** What every interleaving keeps: the deductions are those of what each has done, and the
      second delivery reads what the first has made of the row by then. */
  ghost predicate DuoOk(pa: Plan, pb: Plan, stored: Option<Row>, s: Duo) {
    && s.a.Going? && s.a.read == stored && s.a.done <= |pa(stored)|
    && s.charges == Charges(pa(stored)[..s.a.done]) + Charges(DoneBy(pb, s.b))
    && (s.b.Waiting? ==> s.row == RowAfter(stored, pa(stored)[..s.a.done]))
    && (s.b.Going? ==> s.seen <= s.a.done && s.b.read == RowAfter(stored, pa(stored)[..s.seen]) && s.b.done <= |pb(s.b.read)|)
  }

  lemma OneMoreDone(es: seq<Effect>, n: nat, stored: Option<Row>)
    requires n < |es|
    ensures Charges(es[..n + 1]) == Charges(es[..n]) + if es[n].Charged? then 1 else 0
    ensures RowAfter(stored, es[..n + 1]) == Updated(RowAfter(stored, es[..n]), es[n])
  {
    assert es[..n + 1] == es[..n] + [es[n]];
    Adding(stored, es[..n], es[n]);
  }

  lemma TurnKeeps(pa: Plan, pb: Plan, stored: Option<Row>, s: Duo, second: bool)
    requires DuoOk(pa, pb, stored, s)
    ensures DuoOk(pa, pb, stored, Turn(pa, pb, s, second))
  {
    if second {
      if s.b.Going? && s.b.done < |pb(s.b.read)| {
        OneMoreDone(pb(s.b.read), s.b.done, stored);
      }
    } else if s.a.done < |pa(stored)| {
      OneMoreDone(pa(stored), s.a.done, stored);
    }
  }

  lemma {:induction false} TogetherKeeps(pa: Plan, pb: Plan, stored: Option<Row>, schedule: seq<bool>)
    ensures DuoOk(pa, pb, stored, Together(pa, pb, stored, schedule))
  {
    if schedule == [] {
      assert pa(stored)[..0] == [];
    } else {
      var most := schedule[..|schedule| - 1];
      TogetherKeeps(pa, pb, stored, most);
      TurnKeeps(pa, pb, stored, Together(pa, pb, stored, most), schedule[|schedule| - 1]);
    }
  }

  /** Two overlapping deliveries deduct, in every interleaving, what the first deducts alone
      plus what the second deducts on the row the first had left at its guard read. */
  lemma OverlapAddsUp(pa: Plan, pb: Plan, stored: Option<Row>, schedule: seq<bool>)
    ensures var s := Together(pa, pb, stored, schedule);
            BothDone(pa, pb, s) ==>
              && s.seen <= |pa(stored)|
              && s.charges == Charges(pa(stored)) + Charges(pb(RowAfter(stored, pa(stored)[..s.seen])))
  {
    TogetherKeeps(pa, pb, stored, schedule);
    var s := Together(pa, pb, stored, schedule);
    if BothDone(pa, pb, s) {
      assert pa(stored)[..|pa(stored)|] == pa(stored);
      assert pb(s.b.read)[..|pb(s.b.read)|] == pb(s.b.read);
    }
  }

  /** The processor as a plan. */
  function Processing(env: Env): Plan {
    (row: Option<Row>) => Process(env, row).effects
  }

  /** The delivery would call `consume` and deduct, if its guard read found no result. */
  predicate WouldDeduct(env: Env) {
    env.hasObjectKey && !Broke(env) && StagesReach(env) && Deductions(env) > 0
  }

  /** The plan deducts exactly as the delivery would, on every row its guard may find. */
  ghost predicate PaysLike(plan: Plan, env: Env) {
    forall row :: Charges(plan(row)) > 0 <==> WouldDeduct(env) && !Skips(env, row)
  }

  lemma ProcessingPays(env: Env)
    ensures PaysLike(Processing(env), env)
  {
    forall row ensures Charges(Processing(env)(row)) > 0 <==> WouldDeduct(env) && !Skips(env, row) {
      DeductsExactly(env, row);
    }
  }

  /** The guard checks and then acts: both of two overlapping deliveries deduct if and only if
      both would, and neither guard read found a finished row; the second one finds what the
      first has stored by then. (The processor's plans are `Processing`, see above.) */
  lemma BothDeductExactlyWhen(pa: Plan, pb: Plan, ea: Env, eb: Env, stored: Option<Row>, schedule: seq<bool>)
    requires PaysLike(pa, ea) && PaysLike(pb, eb)
    ensures var s := Together(pa, pb, stored, schedule);
            BothDone(pa, pb, s) ==>
              && s.seen <= |pa(stored)|
              && (Charges(pa(stored)) > 0 && s.charges > Charges(pa(stored)) <==>
                    && WouldDeduct(ea) && !Skips(ea, stored)
                    && WouldDeduct(eb) && !Skips(eb, RowAfter(stored, pa(stored)[..s.seen])))
  {
    OverlapAddsUp(pa, pb, stored, schedule);
  }

  /** The same for the processor itself. */
  lemma ProcessorsBothDeduct(ea: Env, eb: Env, stored: Option<Row>, schedule: seq<bool>)
    ensures var pa, pb := Processing(ea), Processing(eb);
            var s := Together(pa, pb, stored, schedule);
            BothDone(pa, pb, s) ==>
              && s.seen <= |pa(stored)|
              && (Charges(pa(stored)) > 0 && s.charges > Charges(pa(stored)) <==>
                    && WouldDeduct(ea) && !Skips(ea, stored)
                    && WouldDeduct(eb) && !Skips(eb, RowAfter(stored, pa(stored)[..s.seen])))
  {
    ProcessingPays(ea);
    ProcessingPays(eb);
    BothDeductExactlyWhen(Processing(ea), Processing(eb), ea, eb, stored, schedule);
  }

  /** Some effect before `n` stored a result, and nothing was stored since. */
  ghost predicate ResultStored(es: seq<Effect>, n: nat)
    requires n <= |es|
  {
    exists j :: 0 <= j < n && es[j].Persisted? && Finished(Some(es[j].row)) && forall i :: j < i < n ==> !es[i].Persisted?
  }

  /** When the first delivery's row is finished, on the way: exactly then. */
  lemma {:induction false} FinishedExactlyWhen(stored: Option<Row>, es: seq<Effect>, n: nat)
    requires n <= |es| && !Finished(stored)
    ensures Finished(RowAfter(stored, es[..n])) <==> stored.Some? && ResultStored(es, n)
  {
    RowsAreOnlyUpdated(stored, es[..n]);
    if n > 0 {
      FinishedExactlyWhen(stored, es, n - 1);
      OneMoreDone(es, n - 1, stored);
      RowsAreOnlyUpdated(stored, es[..n - 1]);
      if es[n - 1].Persisted? {
        StoredJustNow(es, n);
      } else {
        StoredEarlier(es, n);
      }
    } else {
      assert es[..0] == [];
    }
  }

  lemma StoredJustNow(es: seq<Effect>, n: nat)
    requires 0 < n <= |es| && es[n - 1].Persisted?
    ensures ResultStored(es, n) <==> Finished(Some(es[n - 1].row))
  {
  }

  lemma StoredEarlier(es: seq<Effect>, n: nat)
    requires 0 < n <= |es| && !es[n - 1].Persisted?
    ensures ResultStored(es, n) <==> ResultStored(es, n - 1)
  {
    if ResultStored(es, n - 1) {
      var j :| 0 <= j < n - 1 && es[j].Persisted? && Finished(Some(es[j].row)) && forall i :: j < i < n - 1 ==> !es[i].Persisted?;
      assert forall i :: j < i < n ==> !es[i].Persisted?;
    }
  }

  /** With every call working, the window is everything up to the terminal persist: both
      deliveries deduct if and only if the guard read of the second comes before it. */
  lemma WindowOfDoubleCharge(pa: Plan, pb: Plan, ea: Env, eb: Env, stored: Option<Row>, schedule: seq<bool>)
    requires PaysLike(pa, ea) && PaysLike(pb, eb) && EndsWell(pa, ea)
    requires AllWorks(ea) && AllWorks(eb) && stored.Some? && !Finished(stored)
    requires Deductions(ea) > 0 && Deductions(eb) > 0
    ensures var s, es := Together(pa, pb, stored, schedule), pa(stored);
            BothDone(pa, pb, s) ==>
              && |es| >= 2 && es[|es| - 2] == Persisted(Row(COMPLETED, ea.key, 100))
              && (Charges(es) > 0 && s.charges > Charges(es) <==> s.seen <= |es| - 2)
  {
    BothDeductExactlyWhen(pa, pb, ea, eb, stored, schedule);
    var s, es := Together(pa, pb, stored, schedule), pa(stored);
    if BothDone(pa, pb, s) {
      var pre :| es == pre + [Persisted(Row(COMPLETED, ea.key, 100))] + [Published(Completed(ea.key))] && NoResult(pre);
      FinishedExactlyWhen(stored, es, s.seen);
      ShapeDecides(es, pre, Row(COMPLETED, ea.key, 100), Published(Completed(ea.key)), s.seen);
    }
  }

  /** Unless it finds a result, the plan ends in the terminal persist and the announcement,
      and stores no result before. */
  ghost predicate EndsWell(plan: Plan, env: Env) {
    forall row :: !Skips(env, row) ==>
      exists pre :: NoResult(pre)
                    && plan(row) == pre + [Persisted(Row(COMPLETED, env.key, 100))] + [Published(Completed(env.key))]
  }

  lemma ProcessingEndsWell(env: Env)
    requires AllWorks(env)
    ensures EndsWell(Processing(env), env)
  {
    forall row | !Skips(env, row)
      ensures exists pre :: NoResult(pre)
                && Processing(env)(row) == pre + [Persisted(Row(COMPLETED, env.key, 100))] + [Published(Completed(env.key))]
    {
      var pre := SuccessShape(env, row);
    }
  }

  predicate AllWorks(env: Env) {
    && env.repository && env.guardReadOk && PublishingWorks(env) && StagesSucceed(env) && !Broke(env)
    && env.saveCompleted.0 && env.key != ""
  }

  /** No effect stores a result. */
  predicate NoResult(es: seq<Effect>) {
    forall i :: 0 <= i < |es| && es[i].Persisted? ==> es[i].row.status != COMPLETED
  }

  lemma ShapeDecides(es: seq<Effect>, pre: seq<Effect>, done: Row, last: Effect, n: nat)
    requires es == pre + [Persisted(done)] + [last] && NoResult(pre) && Finished(Some(done)) && !last.Persisted? && n <= |es|
    ensures ResultStored(es, n) <==> n >= |es| - 1
  {
    var k := |pre|;
    assert es[k] == Persisted(done) && es[k + 1] == last;
    assert forall i :: 0 <= i < k ==> es[i] == pre[i];
    if n >= |es| - 1 {
      assert forall i :: k < i < n ==> !es[i].Persisted?;
    }
  }

  lemma NoResultAdds(es: seq<Effect>, e: Effect)
    requires NoResult(es) && (e.Persisted? ==> e.row.status != COMPLETED)
    ensures NoResult(es + [e])
  {
  }

  lemma ChargeNoResult(env: Env, es: seq<Effect>)
    requires NoResult(es)
    ensures NoResult(Charge(env, es))
  {
    NoResultAdds(es, Charged);
    var es' := Attempted(env.consume.first, es);
    NoResultAdds(es', Charged);
  }

  lemma StageNoResult(env: Env, save: bool, es: seq<Effect>, row: Row, percent: nat)
    requires NoResult(es) && row.status != COMPLETED
    ensures NoResult(Save(env, save, Publish(true, es, Progress(percent)), row.(progress := percent)))
  {
    NoResultAdds(es, Published(Progress(percent)));
    var es' := Publish(true, es, Progress(percent));
    NoResultAdds(es', Persisted(row.(progress := percent)));
    NoResultAdds(es', PersistFailed);
  }

  /** A delivery with every call working ends in the terminal persist and the announcement. */
  lemma SuccessShape(env: Env, stored: Option<Row>) returns (pre: seq<Effect>)
    requires AllWorks(env) && !Skips(env, stored)
    ensures Process(env, stored).effects
            == pre + [Persisted(Row(COMPLETED, env.key, 100))] + [Published(Completed(env.key))]
    ensures NoResult(pre)
  {
    var row := Row(PROCESSING, "", 0);
    var es0 := Save(env, env.saveStart, [], row);
    NoResultAdds([], Persisted(row));
    NoResultAdds([], PersistFailed);
    StageNoResult(env, env.save25, es0, row, 25);
    var es1 := Save(env, env.save25, Publish(true, es0, Progress(25)), row.(progress := 25));
    StageNoResult(env, env.save50, es1, row, 50);
    var es2 := Save(env, env.save50, Publish(true, es1, Progress(50)), row.(progress := 50));
    StageNoResult(env, env.save75, es2, row, 75);
    var es3 := Save(env, env.save75, Publish(true, es2, Progress(75)), row.(progress := 75)) + [Uploaded(env.key)];
    NoResultAdds(Save(env, env.save75, Publish(true, es2, Progress(75)), row.(progress := 75)), Uploaded(env.key));
    pre := Charge(env, es3);
    ChargeNoResult(env, es3);
    assert Upload(env, row, es2) == Complete(env, row, es3);
    assert Convert(env, row, es1) == Upload(env, row, es2);
    assert Download(env, row, es0) == Convert(env, row, es1);
  }

  // ---------------------------------------------------------------------------
  // The processor as code
  // ---------------------------------------------------------------------------

  /** The job entity as the worker holds it, with the shared row and what was published. */
  class Processor {
    const env: Env
    var status: JobStatus
    var output: string
    var progress: nat
    var row: Option<Row>
    ghost const before: Option<Row>
    ghost var log: seq<Effect>

    /** The stored row is the one the effects so far leave. */
    ghost predicate Valid()
      reads this
    {
      row == RowAfter(before, log)
    }

    constructor (e: Env, stored: Option<Row>)
      ensures env == e && before == stored && row == stored && log == [] && Valid()
      ensures status == PENDING && output == "" && progress == 0
    {
      env, before, row, log := e, stored, stored, [];
      status, output, progress := PENDING, "", 0;
    }

    ghost method Did(e: Effect)
      modifies this`log
      ensures log == old(log) + [e]
      ensures RowAfter(before, log) == Updated(RowAfter(before, old(log)), e)
    {
      Adding(before, log, e);
      log := log + [e];
    }

    function Job(): Row
      reads this
    {
      Row(status, output, progress)
    }

    /** `UPDATE ... WHERE job_id`: nothing happens when there is no such row. */
    method UpdateRow()
      modifies this`row
      ensures row == Updated(old(row), Persisted(Job()))
    {
      if row.Some? {
        row := Some(Row(status, output, progress));
      }
    }

    method Persist(ok: bool)
      requires Valid()
      modifies this`row, this`log
      ensures Valid() && log == Save(env, ok, old(log), Job())
    {
      if env.repository {
        if ok {
          UpdateRow();
          Did(Persisted(Row(status, output, progress)));
        } else {
          Did(PersistFailed);
        }
      }
    }

    /** `_persist(terminal=True)`: the loop over two attempts. */
    method PersistTerminal(ok: (bool, bool))
      requires Valid()
      modifies this`row, this`log
      ensures Valid() && log == SaveTerminal(env, ok, old(log), Job())
    {
      if !env.repository {
        return;
      }
      var attempt := 0;
      while attempt < 2
        invariant 0 <= attempt <= 2 && Valid()
        invariant attempt == 0 ==> log == old(log)
        invariant attempt == 1 ==> log == old(log) + [PersistFailed]
        invariant attempt == 2 ==> log == old(log) + [PersistFailed] + [PersistFailed]
        invariant attempt > 0 ==> !ok.0
        invariant attempt > 1 ==> !ok.1
      {
        if (if attempt == 0 then ok.0 else ok.1) {
          UpdateRow();
          Did(Persisted(Row(status, output, progress)));
          return;
        }
        Did(PersistFailed);
        attempt := attempt + 1;
      }
    }

    method PublishEvent(ok: bool, event: Event)
      requires Valid()
      modifies this`log
      ensures Valid() && log == Publish(ok, old(log), event)
    {
      Did(if ok then Published(event) else PublishFailed);
    }

    /** The handler around the whole body; `_mark_failed` forces the status. */
    method AbortJob(eventProgress: nat)
      requires Valid()
      modifies this
      ensures Valid() && log == Abort(env, old(Job()), eventProgress, old(log)).effects
    {
      status := FAILED;
      progress := eventProgress;
      PersistTerminal(env.saveFailed);
      PublishEvent(env.publishFailed, Failed);
    }

    /** `process_job`; the result says whether it raised. */
    method ProcessJob() returns (raised: bool)
      requires Valid() && log == [] && status == PENDING && output == "" && progress == 0
      modifies this
      ensures Valid() && Result(log, raised) == Process(env, before)
    {
      if env.repository && env.guardReadOk && row.Some? && row.value.status == COMPLETED && row.value.output != "" {
        PublishEvent(env.publishReplay, Completed(row.value.output));
        return !env.publishReplay;
      }
      if !env.hasObjectKey {
        AbortJob(0);
        return true;
      }
      status := PROCESSING;
      Persist(env.saveStart);
      raised := CheckThenRun();
    }

    /** The credit pre-check and everything after it. */
    method CheckThenRun() returns (raised: bool)
      requires Valid() && status == PROCESSING && output == "" && progress == 0
      modifies this
      ensures Valid() && Result(log, raised) == CheckCredits(env, old(log))
    {
      if env.credits && env.precheck.Exhausted? {
        status, progress := FAILED, 100;
        PersistTerminal(env.saveExhausted);
        PublishEvent(env.publishExhausted, Failed);
        if env.publishExhausted {
          return false;
        }
      }
      if !env.prepare {
        AbortJob(0);
        return true;
      }
      raised := RunStages();
    }

    /** A stage: announce it, mirror it on the row, do the work. */
    method Stage(percent: nat, publishOk: bool, saveOk: bool, workOk: bool) returns (ok: bool)
      requires Valid()
      modifies this
      ensures Valid() && status == old(status) && output == old(output)
      ensures ok == (publishOk && workOk)
      ensures var es := Publish(publishOk, old(log), Progress(percent));
              log == if publishOk then Save(env, saveOk, es, old(Job()).(progress := percent)) else es
    {
      PublishEvent(publishOk, Progress(percent));
      if !publishOk {
        return false;
      }
      progress := percent;
      Persist(saveOk);
      return workOk;
    }

    method RunStages() returns (raised: bool)
      requires Valid()
      modifies this
      ensures Valid() && Result(log, raised) == Download(env, old(Job()), old(log))
    {
      var ok := Stage(25, env.publish25, env.save25, env.download);
      if !ok {
        AbortJob(25);
        return true;
      }
      raised := ConvertAndUpload();
    }

    method ConvertAndUpload() returns (raised: bool)
      requires Valid()
      modifies this
      ensures Valid() && Result(log, raised) == Convert(env, old(Job()), old(log))
    {
      var ok := Stage(50, env.publish50, env.save50, env.convert);
      if !ok {
        AbortJob(50);
        return true;
      }
      raised := UploadAndFinish();
    }

    method UploadAndFinish() returns (raised: bool)
      requires Valid()
      modifies this
      ensures Valid() && Result(log, raised) == Upload(env, old(Job()), old(log))
    {
      var ok := Stage(75, env.publish75, env.save75, env.upload);
      if !ok {
        AbortJob(75);
        return true;
      }
      Did(Uploaded(env.key));
      raised := Finish();
    }

    /** `consume`: the loop over two attempts; what it raises is swallowed by the caller. */
    method Consume()
      requires Valid() && env.credits
      modifies this`log
      ensures Valid() && log == Charge(env, old(log))
    {
      var attempt := 0;
      while attempt < 2
        invariant 0 <= attempt <= 2 && Valid()
        invariant attempt == 0 ==> log == old(log)
        invariant attempt == 1 ==> env.consume.first.Retried() && log == Attempted(env.consume.first, old(log))
        invariant attempt == 2 ==> log == Charge(env, old(log))
      {
        var how := if attempt == 0 then env.consume.first else env.consume.second;
        if how.Deducts() {
          Did(Charged);
        }
        if !how.Retried() {
          return;
        }
        attempt := attempt + 1;
      }
    }

    /** `job.complete`, the deduction, the terminal row and the announcement. */
    method Finish() returns (raised: bool)
      requires Valid()
      modifies this
      ensures Valid() && Result(log, raised) == Complete(env, old(Job()), old(log))
    {
      if status != PROCESSING {
        AbortJob(75);
        return true;
      }
      output, status := env.key, COMPLETED;
      if env.credits {
        Consume();
      }
      progress := 100;
      PersistTerminal(env.saveCompleted);
      PublishEvent(env.publishCompleted, Completed(env.key));
      if !env.publishCompleted {
        AbortJob(100);
        return true;
      }
      return false;
    }
  }

  // ---------------------------------------------------------------------------
  // Settling the message
  // ---------------------------------------------------------------------------

  datatype QueueCall = DeadLetter(ok: bool) | Acknowledge(ok: bool)

  /** The message as the queue has it: still pending, and whether a dead letter exists. */
  datatype Message = Message(pending: bool, dead: bool)

  function Settle(m: Message, calls: seq<QueueCall>): Message {
    if calls == [] then m
    else
      var m' := Settle(m, Most(calls));
      match Last(calls)
      case DeadLetter(ok) => if ok then m'.(dead := true) else m'
      case Acknowledge(ok) => if ok then m'.(pending := false) else m'
  }

  /** One turn of the worker loop. The processor's result and effects are those of the
      delivery; the dead letter is attempted exactly when it raised, before the
      acknowledgement, which is attempted whatever happens. So the message leaves the queue
      without a dead letter after a failure exactly when the dead letter fails and the
      acknowledgement works. */
  method Deliver(p: Processor, deadLetterOk: bool, ackOk: bool) returns (raised: bool, calls: seq<QueueCall>)
    requires p.Valid() && p.log == [] && p.status == PENDING && p.output == "" && p.progress == 0
    modifies p
    ensures p.Valid() && Result(p.log, raised) == Process(p.env, p.before)
    ensures calls == if raised then [DeadLetter(deadLetterOk), Acknowledge(ackOk)] else [Acknowledge(ackOk)]
    ensures Settle(Message(true, false), calls) == Message(!ackOk, raised && deadLetterOk)
    ensures PublishingWorks(p.env) ==>
              (DeadLetter(deadLetterOk) in calls <==> !Skips(p.env, p.before) && !Broke(p.env) && !StagesSucceed(p.env))
  {
    RaisesExactlyWhen(p.env, p.before);
    calls := [];
    raised := p.ProcessJob();
    if raised {
      calls := calls + [DeadLetter(deadLetterOk)];
    }
    calls := calls + [Acknowledge(ackOk)];
    SettledBy(raised, deadLetterOk, ackOk);
  }

  lemma RaisesExactlyWhen(env: Env, stored: Option<Row>)
    ensures PublishingWorks(env) ==>
              (Process(env, stored).raised <==> !Skips(env, stored) && !Broke(env) && !StagesSucceed(env))
  {
    if PublishingWorks(env) {
      var phases, terminal := OneTerminalEvent(env, stored);
    }
  }

  lemma SettledBy(raised: bool, deadLetterOk: bool, ackOk: bool)
    ensures var calls := if raised then [DeadLetter(deadLetterOk), Acknowledge(ackOk)] else [Acknowledge(ackOk)];
            Settle(Message(true, false), calls) == Message(!ackOk, raised && deadLetterOk)
  {
    var m, bury, ack := Message(true, false), [DeadLetter(deadLetterOk)], [Acknowledge(ackOk)];
    assert Most(bury) == [] && Most(ack) == [] && Settle(m, []) == m;
    assert Settle(m, bury) == Message(true, deadLetterOk);
    assert Settle(m, ack) == Message(!ackOk, false);
    var both := [DeadLetter(deadLetterOk), Acknowledge(ackOk)];
    assert Most(both) == bury && Last(both) == Acknowledge(ackOk);
    assert Settle(m, both) == Message(!ackOk, deadLetterOk);
  }
}
