/** Decisions, their persisted records, and the pending approvals that carry them. */
module Decisions {
  import opened Json
  import opened Policy

  /** What was decided, for which request, under which contract, when, and on whose word. */
  datatype Decision = Decision(
    id: string,
    request: Request,
    kind: DecisionType,
    reason: ReasonCode,
    contractId: Option<string>,
    contractHash: Option<string>,
    capability: Option<string>,
    rule: Rule,
    timestamp: real,
    delegatedBy: Option<string>,
    parent: Option<string>,
    approvedBy: Option<string>)

  /** SHA-256 over canonical JSON, taken as injective. */
  datatype Digest = Sha256(args: seq<Field>)

  datatype RequestRecord = RequestRecord(agentId: Value, contractId: Value, action: Value, arguments: seq<Field>)

  /** The stored dictionary. */
  datatype DecisionRecord = DecisionRecord(
    decisionId: string,
    decision: DecisionType,
    reasonCode: ReasonCode,
    agentId: Value,
    contractId: Option<string>,
    contractHash: Option<string>,
    action: Value,
    argumentsHash: Digest,
    capability: Option<string>,
    policyRule: Rule,
    delegatedBy: Option<string>,
    parentDecisionId: Option<string>,
    approvedBy: Option<string>,
    timestamp: real,
    request: RequestRecord)

  function ToRecord(d: Decision): DecisionRecord {
    DecisionRecord(
      d.id, d.kind, d.reason, d.request.agentId, d.contractId, d.contractHash,
      d.request.action, Sha256(d.request.args), d.capability, d.rule, d.delegatedBy, d.parent, d.approvedBy,
      d.timestamp, RequestRecord(d.request.agentId, d.request.contractId, d.request.action, d.request.args))
  }

  function FromRecord(r: DecisionRecord): Decision {
    Decision(
      r.decisionId,
      Request(r.request.agentId, r.request.action, r.request.arguments, r.request.contractId),
      r.decision, r.reasonCode, r.contractId, r.contractHash, r.capability, r.policyRule, r.timestamp,
      r.delegatedBy, r.parentDecisionId, r.approvedBy)
  }

  /** Persistence loses nothing: a stored decision loads back as itself, and a record whose top-level
      fields repeat its request's is the record of the decision it loads as. */
  lemma RecordRoundTrip(d: Decision, r: DecisionRecord)
    ensures FromRecord(ToRecord(d)) == d
    ensures ToRecord(FromRecord(r)) == r
       <==> (&& r.agentId == r.request.agentId && r.action == r.request.action
             && r.argumentsHash == Sha256(r.request.arguments))
  {
  }

  datatype Status = Pending | Decided

  datatype Verb = ApproveVerb | RejectVerb

  datatype Verdict = Granted | Superseded | Rejected

  datatype ApprovalRecord = ApprovalRecord(
    approvalId: string,
    status: Status,
    decision: DecisionRecord,
    usage: Usage,
    createdAt: real,
    verb: Option<Verb>,
    approver: Option<string>,
    verdict: Option<Verdict>,
    resultingDecisionId: Option<string>)

  function PendingRecord(approvalId: string, d: Decision, usage: Usage, createdAt: real): ApprovalRecord {
    ApprovalRecord(approvalId, Pending, ToRecord(d), usage, createdAt, None, None, None, None)
  }

  /** A delivered message: data, never authority. */
  datatype Message = Message(id: string, sender: string, recipient: string, body: Value, decisionId: string)
}
