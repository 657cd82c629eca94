/**
  The action state machine and the risk floor of registered tools
  (backend/src/doda/domain/action/state_machine.py, tool_policy.py, models.py).
*/
module ActionStates {
  import opened Wrappers

  datatype Status =
    | Draft | Validating | AwaitingApproval | Ready | Running | Succeeded | Failed | Retrying
    | Compensating | Compensated | Denied | Rejected | Expired | Cancelled

  // ALLOWED_TRANSITIONS
  function AllowedFrom(s: Status): set<Status> {
    match s
    case Draft => {Validating, Cancelled}
    case Validating => {AwaitingApproval, Ready, Denied}
    case AwaitingApproval => {Ready, Expired, Rejected}
    case Ready => {Running, Cancelled}
    case Running => {Succeeded, Failed, Compensating}
    case Failed => {Retrying}
    case Retrying => {Ready}
    case Compensating => {Compensated, Failed}
    case _ => {}
  }

  // TERMINAL_STATUSES; FAILED is among them although the table lets it be retried.
  const TERMINAL: set<Status> := {Succeeded, Compensated, Denied, Rejected, Expired, Cancelled, Failed}

  // The same table read from the other end: where a status is entered from.
  function EnteredFrom(t: Status): set<Status> {
    match t
    case Validating => {Draft}
    case AwaitingApproval | Denied => {Validating}
    case Ready => {Validating, AwaitingApproval, Retrying}
    case Expired | Rejected => {AwaitingApproval}
    case Running => {Ready}
    case Succeeded | Compensating => {Running}
    case Failed => {Running, Compensating}
    case Compensated => {Compensating}
    case Retrying => {Failed}
    case Cancelled => {Draft, Ready}
    case Draft => {}
  }

  // Every status but DRAFT can be entered, and only FAILED among the terminal ones can be left.
  lemma TransitionTable(s: Status, t: Status)
    ensures t in AllowedFrom(s) <==> s in EnteredFrom(t)
    ensures EnteredFrom(t) == {} <==> t == Draft
    ensures AllowedFrom(s) == {} <==> s in TERMINAL && s != Failed
  {
    var next := match s
      case Draft => Validating
      case Validating | AwaitingApproval | Retrying => Ready
      case Failed => Retrying
      case _ => if s == Ready then Running else Failed;
    assert s !in TERMINAL || s == Failed ==> next in AllowedFrom(s);
    var before := match t
      case Validating | Cancelled => Draft
      case AwaitingApproval | Denied | Ready => Validating
      case Expired | Rejected => AwaitingApproval
      case Running => Ready
      case Retrying => Failed
      case Compensated => Compensating
      case _ => Running;
    assert t != Draft ==> before in EnteredFrom(t);
  }

  datatype Risk = R0 | R1 | R2 | R3 | R4 | R5

  function RiskOrder(r: Risk): nat {
    match r case R0 => 0 case R1 => 1 case R2 => 2 case R3 => 3 case R4 => 4 case R5 => 5
  }

  // AUTO_APPROVED_RISK_LEVELS
  predicate AutoApproved(r: Risk) { r.R0? || r.R1? || r.R2? }

  const TELEGRAM_TOOL_NAME := "telegram.send_message"

  // TOOL_MINIMUM_RISK_LEVEL
  function MinimumRisk(tool: string): Option<Risk> {
    if tool == TELEGRAM_TOOL_NAME then Some(R3) else None
  }

  // What needs no approval is exactly what is below the floor of the tools that send.
  lemma AutoApprovedIff(r: Risk)
    ensures AutoApproved(r) <==> RiskOrder(r) < RiskOrder(MinimumRisk(TELEGRAM_TOOL_NAME).value)
    ensures RiskOrder(R0) < RiskOrder(R1) < RiskOrder(R2) < RiskOrder(R3) < RiskOrder(R4) < RiskOrder(R5)
  {
  }

  // The least level that is neither below the request nor below the tool's floor.
  function EnforceMinimumRiskLevel(tool: string, requested: Risk): (r: Risk)
    ensures RiskOrder(requested) <= RiskOrder(r)
    ensures tool == TELEGRAM_TOOL_NAME ==> !AutoApproved(r)
    ensures forall s: Risk ::
        RiskOrder(requested) <= RiskOrder(s) && (MinimumRisk(tool).Some? ==> RiskOrder(MinimumRisk(tool).value) <= RiskOrder(s))
        ==> RiskOrder(r) <= RiskOrder(s)
  {
    match MinimumRisk(tool)
    case None => requested
    case Some(minimum) => if RiskOrder(requested) >= RiskOrder(minimum) then requested else minimum
  }
}
