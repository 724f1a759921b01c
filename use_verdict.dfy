/** The verdict page's composable, src/composables/useVerdict.ts: one judge
    request for a case summary, with its loading, success and error states. */
module UseVerdict {
  import opened Wrappers
  import opened Types
  import ApiClient

  datatype VerdictState = Idle | Loading | Success | Error

  const MISSING_SUMMARY: string := "缺少案情摘要"
  const SUMMON_FAILED: string := "召唤失败，请稍后再试"

  /** The page state `fetch` leaves after a judge exchange: the verdict and
      its case id on success; on failure a fixed message, with whatever
      verdict and case id the page held before kept. */
  function Settled(result: Result<JudgeResponse, ApiClient.Rejection>, data: Option<Verdict>, caseId: string): (r: (VerdictState, Option<Verdict>, string, string))
    ensures result.Ok? ==> r == (Success, Some(result.value.verdict), result.value.caseId, "")
    ensures result.Err? ==> r == (Error, data, caseId, SUMMON_FAILED)
  {
    match result
    case Ok(response) => (Success, Some(response.verdict), response.caseId, "")
    case Err(_) => (Error, data, caseId, SUMMON_FAILED)
  }

  /** The state of one `useVerdict(userId)` instance. */
  class VerdictSession {
    const api: ApiClient.Client
    const userId: Option<string>
    var state: VerdictState
    var data: Option<Verdict>
    var caseId: string
    var errorMessage: string

    constructor (api0: ApiClient.Client, userId0: Option<string>)
      ensures api == api0 && userId == userId0
      ensures state == Idle && data.None? && caseId == "" && errorMessage == ""
    {
      api := api0;
      userId := userId0;
      state := Idle;
      data := None;
      caseId := "";
      errorMessage := "";
    }

    /** `fetch(summary)`: an empty summary is refused with no request;
        otherwise the case is judged with the page's user id, and the page
        shows the verdict or the failure message. An error message is set
        exactly in the error state. */
    method Fetch(summary: string, cloud: ApiClient.CloudCall -> ApiClient.CloudOutcome) returns (e: Option<ApiClient.Exchange<JudgeResponse>>)
      modifies this
      ensures summary == "" ==>
        e.None? && state == Error && errorMessage == MISSING_SUMMARY && data == old(data) && caseId == old(caseId)
      ensures summary != "" ==>
        && e == Some(ApiClient.JudgeExchange(api.settings, api.cloudAvailable, api.fixtures, summary, userId, cloud))
        && (state, data, caseId, errorMessage) == Settled(e.value.result, old(data), old(caseId))
      ensures (state == Error) == (errorMessage != "")
    {
      if summary == "" {
        errorMessage := MISSING_SUMMARY;
        state := Error;
        return None;
      }
      state := Loading;
      errorMessage := "";
      var exchange := api.Judge(summary, userId, cloud);
      e := Some(exchange);
      match exchange.result {
        case Ok(response) =>
          caseId := response.caseId;
          data := Some(response.verdict);
          state := Success;
        case Err(_) =>
          errorMessage := SUMMON_FAILED;
          state := Error;
      }
    }
  }

  /** Outside mock mode a verdict reaches the page only through the judge
      workflow: without a cloud runtime every fetch of a non-empty summary
      ends in the error state. */
  lemma NoCloudNoVerdict(s: ApiClient.Settings, fixtures: ApiClient.Fixtures, summary: string, userId: Option<string>,
                         cloud: ApiClient.CloudCall -> ApiClient.CloudOutcome, data: Option<Verdict>, caseId: string)
    requires !s.useMock
    ensures Settled(ApiClient.JudgeExchange(s, false, fixtures, summary, userId, cloud).result, data, caseId)
      == (Error, data, caseId, SUMMON_FAILED)
  {
  }
}
