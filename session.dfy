/**
  The session state of the application: the serialized analysis result, the
  draft report, the busy flag of report generation and the modal pair. The
  click handlers update these fields one after another. Report generation is
  asynchronous, so a report request is split into the step that starts it and
  the step that stores its result. Any other handler may run between the two.
 */
module Session {
  import opened Values
  import ReportClient

  /** What the modal shows. */
  datatype ModalContent = ModalContent(title: string, content: string)

  /** One snapshot of the five session fields. */
  datatype Snapshot = Snapshot(
    aiResults: Option<string>,
    draftReport: Option<string>,
    isLoadingReport: bool,
    isModalOpen: bool,
    modalContent: ModalContent)

  /** The state every session starts in. */
  const Initial: Snapshot := Snapshot(None, None, false, false, ModalContent("", ""))

  /** `handleCvWorkerClick`: install a new analysis and clear the report. */
  function RunAnalysisStep(s: Snapshot, artifact: string): (t: Snapshot) {
    s.(aiResults := Some(artifact), draftReport := None)
  }

  /** The guard of `handleLlmOrchestratorClick`: an analysis exists and no request is in flight. */
  predicate ReportGuard(s: Snapshot) {
    Truthy(s.aiResults) && !s.isLoadingReport
  }

  /** The synchronous first half of `handleLlmOrchestratorClick`, up to the call to the generator. */
  function StartReportStep(s: Snapshot): (t: Snapshot) {
    if ReportGuard(s) then s.(isLoadingReport := true, draftReport := None) else s
  }

  /** The second half of `handleLlmOrchestratorClick`, once the generator has settled with `report`. */
  function CompleteReportStep(s: Snapshot, report: string): (t: Snapshot) {
    s.(draftReport := Some(report), isLoadingReport := false)
  }

  /** `openModal`: show `content` under `title`, unless the content is falsy. */
  function OpenModalStep(s: Snapshot, title: string, content: Option<string>): (t: Snapshot) {
    if !Truthy(content) then s
    else s.(modalContent := ModalContent(title, content.value), isModalOpen := true)
  }

  /** `closeModal`: hide the modal. */
  function CloseModalStep(s: Snapshot): (t: Snapshot) {
    s.(isModalOpen := false)
  }

  /**
    The invariant every reachable session keeps: while a request is in flight an
    analysis exists and no report is shown, and an open modal never shows empty
    content.
   */
  predicate Consistent(s: Snapshot) {
    (s.isLoadingReport ==> s.aiResults.Some? && s.draftReport.None?) &&
    (s.isModalOpen ==> s.modalContent.content != "")
  }

  /** The session state, as fields that the handlers assign. */
  class AppSession {
    var aiResults: Option<string>
    var draftReport: Option<string>
    var isLoadingReport: bool
    var isModalOpen: bool
    var modalContent: ModalContent

    /** The current snapshot of the session, which the view reads. */
    function Read(): (s: Snapshot)
      reads this
    {
      Snapshot(aiResults, draftReport, isLoadingReport, isModalOpen, modalContent)
    }

    /** The initial `useState` values. */
    constructor ()
      ensures Read() == Initial
    {
      aiResults := None;
      draftReport := None;
      isLoadingReport := false;
      isModalOpen := false;
      modalContent := ModalContent("", "");
    }

    /** Install the serialized analysis `artifact` and clear the report. */
    method HandleCvWorkerClick(artifact: string)
      modifies this
      ensures Read() == RunAnalysisStep(old(Read()), artifact)
    {
      aiResults := Some(artifact);
      draftReport := None;
    }

    /**
      Start a report request. When the guard holds, mark the session busy,
      clear the report and hand back the analysis text for the generator.
      Otherwise change nothing and start no generation.
     */
    method StartReport() returns (payload: Option<string>)
      modifies this
      ensures Read() == StartReportStep(old(Read()))
      ensures payload == if ReportGuard(old(Read())) then old(aiResults) else None
    {
      if !Truthy(aiResults) || isLoadingReport {
        return None;
      }
      isLoadingReport := true;
      draftReport := None;
      payload := aiResults;
    }

    /**
      Store the settled generation result and clear the busy flag. There is no
      check that the analysis is still the one the request was started for.
     */
    method CompleteReport(report: string)
      modifies this
      ensures Read() == CompleteReportStep(old(Read()), report)
    {
      draftReport := Some(report);
      isLoadingReport := false;
    }

    /** Show `content` in the modal, unless it is falsy. */
    method OpenModal(title: string, content: Option<string>)
      modifies this
      ensures Read() == OpenModalStep(old(Read()), title, content)
    {
      if !Truthy(content) {
        return;
      }
      modalContent := ModalContent(title, content.value);
      isModalOpen := true;
    }

    /** Hide the modal; its content stays. */
    method CloseModal()
      modifies this
      ensures Read() == CloseModalStep(old(Read()))
    {
      isModalOpen := false;
    }

    /**
      A whole report request with no other handler running before it settles:
      start, run the generator on the endpoint outcomes, store the result.
     */
    method HandleLlmOrchestratorClick(outcomes: seq<ReportClient.Attempt>) returns (started: bool, delays: seq<nat>)
      requires |outcomes| >= ReportClient.MaxAttempts
      modifies this
      ensures started == ReportGuard(old(Read()))
      ensures !started ==> Read() == old(Read()) && delays == []
      ensures started ==> delays == ReportClient.Expected(outcomes).delays
      ensures started ==> (Read() ==
        CompleteReportStep(StartReportStep(old(Read())), ReportClient.Expected(outcomes).report))
    {
      var payload := StartReport();
      started := payload.Some?;
      if !started {
        return false, [];
      }
      var report, attempts;
      report, delays, attempts := ReportClient.GenerateDraftReport(outcomes);
      CompleteReport(report);
    }
  }

  /** A user action, or the settling of an outstanding generation. */
  datatype Event =
    | CvWorkerClicked(artifact: string)
    | ReportRequested
    | ReportSettled(report: string)
    | ModalOpened(title: string, content: Option<string>)
    | ModalClosed

  /** The effect of one event on the session. */
  function Apply(s: Snapshot, e: Event): (t: Snapshot) {
    match e
    case CvWorkerClicked(artifact) => RunAnalysisStep(s, artifact)
    case ReportRequested => StartReportStep(s)
    case ReportSettled(report) => CompleteReportStep(s, report)
    case ModalOpened(title, content) => OpenModalStep(s, title, content)
    case ModalClosed => CloseModalStep(s)
  }

  /** The session after `events`, in order, starting from `s`. */
  function Replay(s: Snapshot, events: seq<Event>): (t: Snapshot)
    decreases |events|
  {
    if events == [] then s else Replay(Apply(s, events[0]), events[1..])
  }

  /** How many generations `events` start, starting from `s`: the report requests the guard accepts. */
  function Invocations(s: Snapshot, events: seq<Event>): (n: nat)
    decreases |events|
  {
    if events == [] then 0
    else (if events[0].ReportRequested? && ReportGuard(s) then 1 else 0) + Invocations(Apply(s, events[0]), events[1..])
  }

  /** Whether `events` contains no settling of a generation. */
  predicate NoneSettled(events: seq<Event>) {
    forall i :: 0 <= i < |events| ==> !events[i].ReportSettled?
  }

  /** The initial session is consistent. */
  lemma InitialConsistent()
    ensures Consistent(Initial)
  {
  }

  /** Every event keeps the session consistent. */
  lemma ApplyPreservesConsistent(s: Snapshot, e: Event)
    requires Consistent(s)
    ensures Consistent(Apply(s, e))
  {
  }

  /** Every sequence of events keeps the session consistent. */
  lemma {:induction false} ReplayPreservesConsistent(s: Snapshot, events: seq<Event>)
    requires Consistent(s)
    ensures Consistent(Replay(s, events))
    decreases |events|
  {
    if events != [] {
      ApplyPreservesConsistent(s, events[0]);
      ReplayPreservesConsistent(Apply(s, events[0]), events[1..]);
    }
  }

  /** A request with no analysis, or one made while another is in flight, changes nothing. */
  lemma RejectedRequestIsNoOp(s: Snapshot)
    requires !Truthy(s.aiResults) || s.isLoadingReport
    ensures StartReportStep(s) == s
    ensures Invocations(s, [ReportRequested]) == 0
  {
  }

  /**
    An accepted request sets the busy flag and clears the report; settling
    stores the generated text as the report and clears the busy flag.
   */
  lemma AcceptedRequestLifecycle(s: Snapshot, report: string)
    requires ReportGuard(s)
    ensures StartReportStep(s).isLoadingReport && StartReportStep(s).draftReport == None
    ensures StartReportStep(s).aiResults == s.aiResults
    ensures Invocations(s, [ReportRequested]) == 1
    ensures var t := CompleteReportStep(StartReportStep(s), report);
      t.draftReport == Some(report) && !t.isLoadingReport && t.aiResults == s.aiResults
  {
  }

  /**
    Running an analysis replaces the analysis and clears the report whatever
    the prior state, and touches neither the busy flag nor the modal.
   */
  lemma RunAnalysisReplaces(s: Snapshot, artifact: string)
    ensures RunAnalysisStep(s, artifact).aiResults == Some(artifact)
    ensures RunAnalysisStep(s, artifact).draftReport == None
    ensures RunAnalysisStep(s, artifact).isLoadingReport == s.isLoadingReport
    ensures RunAnalysisStep(s, artifact).isModalOpen == s.isModalOpen
    ensures RunAnalysisStep(s, artifact).modalContent == s.modalContent
  {
  }

  /**
    There is no staleness guard: an analysis run while a request is in flight
    keeps the session busy, so a second request is refused, and the settling
    request then stores its report next to the newer analysis.
   */
  lemma StaleCompletionOverwrites(s: Snapshot, artifact: string, report: string)
    requires ReportGuard(s)
    ensures var busy := RunAnalysisStep(StartReportStep(s), artifact);
      busy.isLoadingReport && busy.draftReport == None && !ReportGuard(busy) &&
      CompleteReportStep(busy, report).aiResults == Some(artifact) &&
      CompleteReportStep(busy, report).draftReport == Some(report)
  {
  }

  /** An empty or absent content leaves the modal as it was; a truthy one opens it with that content. */
  lemma OpenModalIgnoresFalsy(s: Snapshot, title: string, content: Option<string>)
    ensures !Truthy(content) ==> OpenModalStep(s, title, content) == s
    ensures Truthy(content) ==> (OpenModalStep(s, title, content).isModalOpen &&
      OpenModalStep(s, title, content).modalContent == ModalContent(title, content.value))
  {
  }

  /** Closing the modal clears only the open flag; the content stays for the next opening. */
  lemma CloseModalKeepsContent(s: Snapshot)
    ensures !CloseModalStep(s).isModalOpen
    ensures CloseModalStep(s).modalContent == s.modalContent
    ensures CloseModalStep(s).(isModalOpen := s.isModalOpen) == s
  {
  }

  /** Only the settling of a generation clears the busy flag. */
  lemma {:induction false} BusyUntilSettled(s: Snapshot, events: seq<Event>)
    requires s.isLoadingReport && NoneSettled(events)
    ensures Replay(s, events).isLoadingReport
    decreases |events|
  {
    if events != [] {
      assert !events[0].ReportSettled?;
      BusyUntilSettled(Apply(s, events[0]), events[1..]);
    }
  }

  /**
    At most one generation is outstanding: until one settles, however many
    requests are made, at most one is accepted, and none while one is in flight.
   */
  lemma {:induction false} AtMostOneInFlight(s: Snapshot, events: seq<Event>)
    requires NoneSettled(events)
    ensures Invocations(s, events) <= if s.isLoadingReport then 0 else 1
    decreases |events|
  {
    if events != [] {
      var next := Apply(s, events[0]);
      assert !events[0].ReportSettled?;
      assert NoneSettled(events[1..]) by {
        forall i | 0 <= i < |events[1..]| ensures !events[1..][i].ReportSettled? {
          assert events[1..][i] == events[i + 1];
        }
      }
      AtMostOneInFlight(next, events[1..]);
      if events[0].ReportRequested? && ReportGuard(s) {
        assert next.isLoadingReport;
      }
    }
  }

  /**
    From the initial session, running an analysis and reading the session
    gives that analysis and no report.
   */
  lemma AnalysisThenRead(artifact: string)
    ensures Replay(Initial, [CvWorkerClicked(artifact)]).aiResults == Some(artifact)
    ensures Replay(Initial, [CvWorkerClicked(artifact)]).draftReport == None
  {
  }

  /**
    A request on a fresh analysis whose generator fails twice and then returns
    `text` ends idle with `text` as the report, after two backoff sleeps.
   */
  lemma RequestAfterTwoFailures(s: Snapshot, outcomes: seq<ReportClient.Attempt>, text: string)
    requires Truthy(s.aiResults) && !s.isLoadingReport
    requires |outcomes| >= ReportClient.MaxAttempts
    requires ReportClient.AttemptText(outcomes[0]).None? && ReportClient.AttemptText(outcomes[1]).None?
    requires ReportClient.AttemptText(outcomes[2]) == Some(text)
    ensures var g := ReportClient.Expected(outcomes);
      var t := CompleteReportStep(StartReportStep(s), g.report);
      !t.isLoadingReport && t.draftReport == Some(text) && |g.delays| == 2
  {
  }
}
