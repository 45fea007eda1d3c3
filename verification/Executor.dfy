/** The executor: the only holder of tools, acting only on a signed, matching, unexpired, unused grant. */
module Execution {
  import opened Audit
  import opened AuditFates
  import opened Json
  import opened Policy
  import opened Decisions
  import opened Store
  import opened Kernel
  import opened KernelAnswers
  import opened Facade
  import opened Transactions

  class GrantSigner {
    const key: nat
    ghost var signed: set<Payload>

    constructor (key: nat)
      ensures this.key == key && signed == {}
    {
      this.key, signed := key, {};
    }

    method SignPayload(p: Payload) returns (signature: Signature)
      modifies this
      ensures signature == Sign(key, p) && signed == old(signed) + {p}
    {
      signed := signed + {p};
      signature := Sign(key, p);
    }
  }

  class Executor {
    const signer: GrantSigner
    const tools: set<string>
    const audit: AuditLog<Kernel.Entry>
    const state: SQLiteStateStore
    ghost var runs: seq<ToolRun>

    ghost predicate Valid()
      reads this, signer, state, audit, audit.file
    {
      state.Valid() && audit.Readable()
    }

    ghost function Shown(): Shared
      reads this, signer, state, audit, audit.file
    {
      Shared(state.Ledger(), Marked(audit.history), signer.signed, runs)
    }

    ghost function Now(): Live
      reads this, signer, state, audit, audit.file
    {
      Live(Shown(), audit.file.fates)
    }

    constructor (signer: GrantSigner, tools: set<string>, audit: AuditLog<Kernel.Entry>, state: SQLiteStateStore)
      ensures this.signer == signer && this.tools == tools && this.audit == audit && this.state == state && runs == []
    {
      this.signer, this.tools, this.audit, this.state, runs := signer, tools, audit, state, [];
    }

    /** The checks in order; the claim comes last, so a refused grant is not spent. */
    method Check(g: Grant, req: Request, now: real) returns (refusal: Option<Refusal>)
      requires Valid()
      modifies state
      ensures Valid() && state.depth == old(state.depth)
      ensures refusal == Judge(signer.key, tools, old(state.Ledger()), g, req, now)
      ensures refusal.None? <==> Executable(signer.key, tools, old(state.Ledger()), g, req, now)
      ensures refusal.Some? ==> RefusedFor(signer.key, tools, old(state.Ledger()), g, req, now, refusal.value)
      ensures state.Ledger()
           == if refusal.None? then old(state.Ledger()).Claim(g.payload.decisionId, g.payload.expiresAt)
                                else old(state.Ledger())
    {
      JudgeExact(signer.key, tools, state.Ledger(), g, req, now);
      if !VerifyGrant(signer.key, g) {
        return Some(InvalidSignature);
      }
      if Str(g.payload.agentId) != req.agentId || Str(g.payload.action) != req.action {
        return Some(RequestMismatch);
      }
      if g.payload.arguments != Sha256(req.args) {
        return Some(ArgumentsMismatch);
      }
      if now >= g.payload.expiresAt {
        return Some(GrantExpired);
      }
      if req.action.s !in tools {
        return Some(NoTool);
      }
      var first := state.ClaimGrant(g.payload.decisionId, g.payload.expiresAt);
      refusal := if first then None else Some(AlreadyUsed);
    }

    /** The message tool queues for its recipient; any other tool is opaque and only succeeds or fails. */
    method RunTool(run: ToolRun, messageId: string, toolSucceeds: bool) returns (ok: bool)
      requires Valid()
      modifies this, state
      ensures Valid() && state.depth == old(state.depth)
      ensures Shown() == RunTx(old(Shown()), run, messageId)
      ensures ok == if run.payload.action == MESSAGE_ACTION then MessageFor(run, messageId).Some? else toolSucceeds
    {
      runs := runs + [run];
      var m := MessageFor(run, messageId);
      if m.Some? {
        state.PushMessage(m.value);
      }
      ok := if run.payload.action == MESSAGE_ACTION then m.Some? else toolSucceeds;
    }

    method Refuse(decisionId: string, req: Request, reason: Refusal) returns (r: Option<Outcome>)
      requires Valid()
      modifies audit, audit.file
      ensures Valid() && (Now(), r) == RefuseTx(old(Now()), decisionId, req, reason)
    {
      var ok := Note(audit, ExecutionRefused(decisionId, req, reason));
      r := if ok then Some(Refused(reason)) else None;
    }

    method Perform(run: ToolRun, w: Draws) returns (r: Option<Outcome>)
      requires Valid()
      modifies this, state, audit, audit.file
      ensures Valid() && state.depth == old(state.depth)
      ensures (Now(), r) == PerformTx(old(Now()), run, w)
    {
      var done := RunTool(run, w.messageId, w.toolSucceeds);
      ghost var s := Shown();
      var ok := Note(audit, Executed(run.payload.decisionId, run.request, run.payload.contractId, done));
      assert Shown() == s.(trail := Shown().trail);
      r := if ok then Some(Ran(done)) else None;
    }

    /** The whole execution. When its audit write raises, a refusal has changed nothing but the trail,
        while after a run the claim and the effect stand. */
    method Execute(site: Site, g: Grant, req: Request, w: Draws) returns (r: Option<Outcome>)
      requires Valid() && site.key == signer.key
      modifies this, state, audit, audit.file
      ensures Valid() && state.depth == old(state.depth)
      ensures (Now(), r) == ExecuteTx(site, tools, old(Now()), g, req, w)
      ensures runs == old(runs)
        + if Executable(signer.key, tools, old(state.Ledger()), g, req, w.checkedAt) then
            [ToolRun(g.payload, req, w.checkedAt)] else []
    {
      var refusal := Check(g, req, w.checkedAt);
      if refusal.Some? {
        r := Refuse(g.payload.decisionId, req, refusal.value);
      } else {
        r := Perform(ToolRun(g.payload, req, w.checkedAt), w);
      }
    }
  }
}
