/** The admin test centre: a record of test results keyed by test id, the status badge of
    each test, the environment summary with the masked anon key, and the checks made by
    the quote-pdf and send-quote edge-function tests. */
module AdminTests {
  import opened Wrappers
  import opened Text
  import opened Numbers

  datatype TestStatus = Idle | Running | Pass | Fail

  /** A test's result; also the shape of the patch `setResult` merges in. */
  datatype TestResult = TestResult(status: TestStatus, message: Option<string>)

  /** `{ ...prev[id], ...patch }`: the patch's status, and its message when it has one,
      otherwise the previous message (none for a test that has no entry yet). */
  function Merge(prev: Option<TestResult>, patch: TestResult): (r: TestResult)
    ensures r.status == patch.status
    ensures patch.message.Some? ==> r.message == patch.message
    ensures patch.message.None? && prev.Some? ==> r.message == prev.value.message
    ensures patch.message.None? && prev.None? ==> r.message.None?
  {
    var message := if patch.message.Some? then patch.message else if prev.Some? then prev.value.message else None;
    TestResult(patch.status, message)
  }

  /** `results[id]`, absent for a test that never ran. */
  function Entry(results: map<string, TestResult>, id: string): Option<TestResult> {
    if id in results then Some(results[id]) else None
  }

  /** `setResult(id, patch)` on the results record: only the entry for `id` changes. */
  function Merged(results: map<string, TestResult>, id: string, patch: TestResult): (r: map<string, TestResult>)
    ensures id in r && r[id] == Merge(Entry(results, id), patch)
    ensures forall k :: k != id ==> (k in r <==> k in results)
    ensures forall k :: k != id && k in results ==> r[k] == results[k]
  {
    results[id := Merge(Entry(results, id), patch)]
  }

  /** The patch a run starts with. */
  const Started := TestResult(Running, Some("Running..."))

  /** The patch a run ends with: pass with the runner's message, or fail with the thrown
      error's message or "Test failed". */
  function Finished(outcome: Outcome<string>): (r: TestResult)
    ensures outcome.Returned? ==> r == TestResult(Pass, Some(outcome.value))
    ensures outcome.Threw? ==> r == TestResult(Fail, Some(MessageOf(outcome.error, "Test failed")))
  {
    match outcome
    case Returned(m) => TestResult(Pass, Some(m))
    case Threw(e) => TestResult(Fail, Some(MessageOf(e, "Test failed")))
  }

  /** Starting then finishing a run leaves pass or fail with a message, whatever the test
      showed before, and leaves every other test alone. */
  lemma RunOutcome(results: map<string, TestResult>, id: string, outcome: Outcome<string>)
    ensures var after := Merged(Merged(results, id, Started), id, Finished(outcome));
      after[id] == Finished(outcome) &&
      (after[id].status == Pass <==> outcome.Returned?) &&
      (after[id].status == Fail <==> outcome.Threw?) &&
      forall k :: k != id ==> (k in after <==> k in results) && (k in results ==> after[k] == results[k])
  {
  }

  /** The page's results record, changed by each test run. */
  class TestCenter {
    var results: map<string, TestResult>

    /** No test has run yet. */
    constructor ()
      ensures results == map[]
    {
      results := map[];
    }

    /** `setResult(id, patch)`. */
    method SetResult(id: string, patch: TestResult)
      modifies this
      ensures results == Merged(old(results), id, patch)
    {
      results := Merged(results, id, patch);
    }

    /** `run(id, runner)`: the test shows running, then the runner's outcome. */
    method Run(id: string, outcome: Outcome<string>)
      modifies this
      ensures results == Merged(Merged(old(results), id, Started), id, Finished(outcome))
      ensures results[id] == Finished(outcome)
    {
      SetResult(id, Started);
      assert results[id].status == Running;
      SetResult(id, Finished(outcome));
      RunOutcome(old(results), id, outcome);
    }
  }

  // ----- badges and the environment summary -----

  /** The label of `statusBadge(results[id]?.status ?? "idle")`. */
  function BadgeLabel(results: map<string, TestResult>, id: string): (badge: string)
    ensures id !in results ==> badge == "Idle"
    ensures id in results ==> badge == match results[id].status
      case Pass => "Pass" case Fail => "Fail" case Running => "Running" case Idle => "Idle"
  {
    var status := if id in results then results[id].status else Idle;
    match status
    case Pass => "Pass"
    case Fail => "Fail"
    case Running => "Running"
    case Idle => "Idle"
  }

  /** A finished run shows Pass exactly when its runner returned, Fail otherwise. */
  lemma FinishedBadge(results: map<string, TestResult>, id: string, outcome: Outcome<string>)
    ensures BadgeLabel(Merged(Merged(results, id, Started), id, Finished(outcome)), id)
      == if outcome.Returned? then "Pass" else "Fail"
  {
  }

  /** `${key.slice(0, 6)}…${key.slice(-4)}`. */
  function Mask(key: string): (r: string)
    ensures |key| >= 10 ==> r == key[..6] + "…" + key[|key| - 4..] && |r| == 11
    ensures |key| < 10 ==> |r| == Min(6, |key|) + 1 + Min(4, |key|)
  {
    key[..Min(6, |key|)] + "…" + key[Max(|key| - 4, 0)..]
  }

  function Min(a: int, b: int): int {
    if a <= b then a else b
  }

  function Max(a: int, b: int): int {
    if a >= b then a else b
  }

  /** A masked key is never longer than 11 characters, so at most ten characters of the
      key are shown. */
  lemma MaskShowsAtMostTen(key: string)
    ensures |Mask(key)| <= 11
  {
  }

  /** The environment card's values. */
  datatype EnvSummary = EnvSummary(supabaseUrl: string, anonKey: string, adminEmails: string, exchangeRate: string)

  /** `envSummary`: each unset value shows "Missing"; the anon key also shows "Missing" when
      it is empty, and is masked otherwise. */
  function Summary(url: Option<string>, anonKey: Option<string>, adminEmails: Option<string>,
                   rate: Option<string>): (e: EnvSummary)
    ensures e.supabaseUrl == url.GetOr("Missing") && e.adminEmails == adminEmails.GetOr("Missing")
    ensures e.exchangeRate == rate.GetOr("Missing")
    ensures e.anonKey == if Truthy(anonKey) then Mask(anonKey.value) else "Missing"
  {
    EnvSummary(url.GetOr("Missing"), if Truthy(anonKey) then Mask(anonKey.value) else "Missing",
               adminEmails.GetOr("Missing"), rate.GetOr("Missing"))
  }

  /** A set anon key is never shown as "Missing": its mask has the ellipsis in it. */
  lemma SetKeyNotMissing(url: Option<string>, key: string, adminEmails: Option<string>, rate: Option<string>)
    requires key != ""
    ensures Summary(url, Some(key), adminEmails, rate).anonKey != "Missing"
  {
    var m := Mask(key);
    assert m[Min(6, |key|)] == '…';
    assert "Missing"[Min(6, |key|)] != '…';
  }

  // ----- the edge-function tests -----

  /** What `supabase.auth.getSession()` gives: an error, or a session whose token may be absent. */
  datatype SessionResult = SessionError(error: Thrown) | Session(token: Option<string>)

  /** `getAccessToken()`: the session's error is rethrown; a missing or empty token is refused. */
  function AccessToken(s: SessionResult): (r: Outcome<string>)
    ensures s.SessionError? ==> r == Threw(s.error)
    ensures s.Session? && !Truthy(s.token) ==> r == Threw(ErrorValue("No active session token. Please sign in again."))
    ensures r.Returned? <==> s.Session? && Truthy(s.token)
    ensures r.Returned? ==> r.value == s.token.value && r.value != ""
  {
    match s
    case SessionError(e) => Threw(e)
    case Session(token) =>
      if Truthy(token) then Returned(token.value)
      else Threw(ErrorValue("No active session token. Please sign in again."))
  }

  /** What invoking `quote-pdf` gives: an error, or data whose `base64` field may be absent. */
  datatype PdfInvocation = PdfError(error: Thrown) | PdfData(base64: Option<string>)

  /** `data?.base64?.length ?? 0`. */
  function PdfSize(d: PdfInvocation): nat
    requires d.PdfData?
  {
    if d.base64.Some? then |d.base64.value| else 0
  }

  /** The quote-pdf runner. A blank id is refused before anything is requested; then the
      token and the invocation errors are rethrown; an empty PDF fails; otherwise the
      message gives the size. `invoke` receives the trimmed id and the token. */
  function QuotePdfCheck(quoteId: string, session: SessionResult,
                         invoke: (string, string) -> PdfInvocation): (r: Outcome<string>)
    ensures Trim(quoteId) == [] ==> r == Threw(ErrorValue("Enter a quote public ID first."))
    ensures Trim(quoteId) != [] && AccessToken(session).Threw? ==> r == Threw(AccessToken(session).error)
    ensures r.Returned? <==>
      Trim(quoteId) != [] && AccessToken(session).Returned? &&
      invoke(Trim(quoteId), AccessToken(session).value).PdfData? &&
      PdfSize(invoke(Trim(quoteId), AccessToken(session).value)) > 0
    ensures r.Returned? ==>
      r.value == "PDF generated (" + NatToString(PdfSize(invoke(Trim(quoteId), AccessToken(session).value))) + " base64 chars)."
  {
    if Trim(quoteId) == [] then Threw(ErrorValue("Enter a quote public ID first."))
    else
      match AccessToken(session)
      case Threw(e) => Threw(e)
      case Returned(token) =>
        match invoke(Trim(quoteId), token)
        case PdfError(e) => Threw(e)
        case PdfData(b) =>
          var size := PdfSize(PdfData(b));
          if size == 0 then Threw(ErrorValue("No PDF data returned."))
          else Returned("PDF generated (" + NatToString(size) + " base64 chars).")
  }

  /** What invoking `send-quote` gives: an error, or data whose `ok` is truthy or not. */
  datatype SendInvocation = SendError(error: Thrown) | SendData(ok: bool)

  /** The send-quote runner: the same id and token checks as quote-pdf; a reply without
      `ok` fails, and the success message depends on the dry-run box. `invoke` receives
      the trimmed id, the dry-run flag and the token. */
  function SendQuoteCheck(quoteId: string, dryRun: bool, session: SessionResult,
                          invoke: (string, bool, string) -> SendInvocation): (r: Outcome<string>)
    ensures Trim(quoteId) == [] ==> r == Threw(ErrorValue("Enter a quote public ID first."))
    ensures Trim(quoteId) != [] && AccessToken(session).Threw? ==> r == Threw(AccessToken(session).error)
    ensures (Trim(quoteId) != [] && AccessToken(session).Returned? &&
             invoke(Trim(quoteId), dryRun, AccessToken(session).value) == SendData(false)) ==>
      r == Threw(ErrorValue("Function did not return ok."))
    ensures r.Returned? <==>
      Trim(quoteId) != [] && AccessToken(session).Returned? &&
      invoke(Trim(quoteId), dryRun, AccessToken(session).value) == SendData(true)
    ensures r.Returned? ==> r.value == if dryRun then "Dry run complete." else "Send request completed."
  {
    if Trim(quoteId) == [] then Threw(ErrorValue("Enter a quote public ID first."))
    else
      match AccessToken(session)
      case Threw(e) => Threw(e)
      case Returned(token) =>
        match invoke(Trim(quoteId), dryRun, token)
        case SendError(e) => Threw(e)
        case SendData(ok) =>
          if !ok then Threw(ErrorValue("Function did not return ok."))
          else Returned(if dryRun then "Dry run complete." else "Send request completed.")
  }

  /** Running either edge-function test with a blank id ends in Fail with the prompt to
      enter an id, and nothing is invoked. */
  lemma BlankIdFails(results: map<string, TestResult>, id: string, quoteId: string, dryRun: bool,
                     session: SessionResult, pdf: (string, string) -> PdfInvocation,
                     send: (string, bool, string) -> SendInvocation)
    requires IsBlank(quoteId)
    ensures Finished(QuotePdfCheck(quoteId, session, pdf)) == TestResult(Fail, Some("Enter a quote public ID first."))
    ensures Finished(SendQuoteCheck(quoteId, dryRun, session, send)) == TestResult(Fail, Some("Enter a quote public ID first."))
  {
  }
}
