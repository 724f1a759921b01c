/** The records the client passes around: the shapes of src/types.d.ts and the
    chat and judge responses declared in the API client. Optional fields are
    `Option`s; a boolean flag that may be missing is `false` when missing. */
module Types {
  import opened Wrappers
  import opened JsValue

  datatype Role = User | Ai | System

  function RoleName(role: Role): string {
    match role
    case User => "user"
    case Ai => "ai"
    case System => "system"
  }

  datatype ChatMessage = ChatMessage(id: string, role: Role, text: string, ts: int)

  datatype CaseSummary = CaseSummary(id: string, text: string, keywords: Option<seq<string>>)

  /** 轻, 中, 重 */
  datatype Severity = Light | Medium | Heavy

  datatype Charge = Charge(
    name: string,
    severity: Severity,
    evidence: Option<seq<string>>,
    keywords: Option<seq<string>>)

  datatype Order = Order(kind: string, content: string, deadline: Option<string>)

  /** A verdict. The one the workflow mapping builds has no case id, and its
      share summary is whatever value the workflow put there, hence `Json`. */
  datatype Verdict = Verdict(
    caseId: Option<string>,
    title: string,
    charges: seq<Charge>,
    orders: seq<Order>,
    humorPenalty: Option<string>,
    tips: Option<seq<string>>,
    shareSummary: Option<Json>)

  datatype Metadata = Metadata(round: Option<int>, summaryReady: bool, summary: Option<CaseSummary>)

  datatype ChatResponse = ChatResponse(
    answer: string,
    conversationId: Option<string>,
    metadata: Option<Metadata>)

  datatype JudgeResponse = JudgeResponse(caseId: string, verdict: Verdict)
}
