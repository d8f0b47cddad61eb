/** What a prepare run asks of the transition table, in every run. */
module Preparation {
  import opened Bundles
  import opened Documents
  import opened Erc20
  import opened Governor
  import opened Grounds
  import opened Intake
  import opened Invariant
  import opened Jobs
  import opened Protocol
  import opened StateMachine
  import opened Wrappers

  // ------------------------------------------------------------------ what a prepare run ends in

  /**
   * In every run: the status a prepare run gave a job is true of the chain. A refusal as canceled, pending, not
   * executable or executed elsewhere is what some `state()`, some record and some clock reading warrant; a payload
   * mismatch is a bundle with another hash; a job awaiting approval, or refused after its snapshot, was found eligible
   * and has the balance snapshot of the first selected action of a bundle with the frozen hash.
   */
  lemma EveryOutcomeIsGrounded(cfg: Config, steps: seq<Step>, j: JobId)
    requires IsRun(cfg, steps) && j in Run(cfg, steps).store.jobs && Prepared(Run(cfg, steps).store.jobs[j].status)
    ensures var s := Run(cfg, steps); var job := s.store.jobs[j];
            Grounded(cfg, ChainOf(s, job), job.commitment, job.status, job.execution)
  {
    hide Run, RecordShape, Bound, DispatchOk, Grounded;
    var k := StoredDocument(cfg, steps, j);
  }

  lemma HolderCarries(cfg: Config, s: State, pid: nat, p: Proc, k: nat)
    requires (p.PrepareBlock? || p.PrepareSnapshot?) && HolderOk(cfg, s, pid, p, k)
    ensures FrozenAction(cfg, ChainOf(s, p.base), p.base.commitment, p.action)
  {
    hide DocOk, DispatchOk, Fresh, Walked, Seen, FrozenAction;
  }

  /** In every run: what a prepare run carries past its bundle check was the frozen bundle's first selected action. */
  lemma RunCarries(cfg: Config, steps: seq<Step>, pid: nat)
    requires IsRun(cfg, steps) && pid in Run(cfg, steps).procs
    requires Run(cfg, steps).procs[pid].PrepareBlock? || Run(cfg, steps).procs[pid].PrepareSnapshot?
    ensures var s := Run(cfg, steps); var p := s.procs[pid];
            FrozenAction(cfg, ChainOf(s, p.base), p.base.commitment, p.action)
  {
    hide Run, IsRun, DocInv, HolderOk, FrozenAction;
    RunKeepsDocs(cfg, steps);
    var s := Run(cfg, steps);
    var k := Documents.Holding(cfg, s, pid);
    HolderCarries(cfg, s, pid, s.procs[pid], k);
  }

  // ------------------------------------------------------------------ the two moves the table lacks

  lemma StandsAtAuthorization(cfg: Config, s: State, pid: nat)
    requires DocInv(cfg, s) && pid in s.procs && s.procs[pid].PrepareAuthorization?
    ensures s.procs[pid].trail != [] && s.procs[pid].trail[|s.procs[pid].trail| - 1].VerifyingAuthorization?
  {
    hide DocInv, DocOk, DispatchOk, Fresh, IsPath;
    var k := Documents.Holding(cfg, s, pid);
  }

  lemma StandsAtCapture(cfg: Config, s: State, pid: nat)
    requires DocInv(cfg, s) && pid in s.procs && s.procs[pid].PrepareBlock?
    ensures s.procs[pid].trail != [] && s.procs[pid].trail[|s.procs[pid].trail| - 1].CapturingPrestate?
  {
    hide DocInv, DocOk, DispatchOk, Fresh, IsPath;
    var k := Documents.Holding(cfg, s, pid);
  }

  /**
   * In every run, stale intake writes included, for an intake-built commitment and a hash that tells bundles apart, a
   * prepare run never asks for the two moves the table lacks: where it checks its bundle and the hash is unchanged, it
   * finds its action and goes on; and where it is about to take its snapshot, however long after the check and however
   * the chain has grown, its action decodes and it goes on.
   */
  lemma PrepareStaysOnTheTable(cfg: Config, steps: seq<Step>, pid: nat, o: Observation)
    requires IsRun(cfg, steps) && pid in Run(cfg, steps).procs
    requires Run(cfg, steps).procs[pid].PrepareAuthorization? || Run(cfg, steps).procs[pid].PrepareBlock?
    requires var s := Run(cfg, steps); var c := s.procs[pid].base.commitment;
             IntakeBuilt(cfg, ChainOf(s, s.procs[pid].base), c) && Separates(cfg, ChainOf(s, s.procs[pid].base), c)
    ensures var s := Run(cfg, steps); var p := s.procs[pid];
            var chain, c := ChainOf(s, p.base), p.base.commitment;
            && (p.PrepareAuthorization? && !o.fails && StillFrozen(cfg, chain, c, o.block) ==>
                  && ActionAt(chain, c, o.block).Some?
                  && Local(cfg, chain, p, o) ==
                       Go(PrepareBlock(p.base, p.trail + [CapturingPrestate], ActionAt(chain, c, o.block).value)))
            && (p.PrepareBlock? ==>
                  && TryDecodeTransfer(p.action.signature, p.action.calldata).Some?
                  && (!o.fails && o.block < |chain.blocks| ==>
                        Local(cfg, chain, p, o) == Go(PrepareSnapshot(p.base, p.trail, p.action, o.block))))
  {
    hide Run, IsRun, DocInv, Local, IntakeBuilt, Separates, FrozenAction;
    RunKeepsDocs(cfg, steps);
    var s := Run(cfg, steps);
    var p, chain := s.procs[pid], ChainOf(s, s.procs[pid].base);
    if p.PrepareAuthorization? {
      StandsAtAuthorization(cfg, s, pid);
      if !o.fails && StillFrozen(cfg, chain, p.base.commitment, o.block) {
        AuthorizationGoesOn(cfg, chain, p, o);
      }
    } else {
      StandsAtCapture(cfg, s, pid);
      RunCarries(cfg, steps, pid);
      CaptureGoesOn(cfg, chain, p, o);
    }
  }

  lemma AuthorizationGoesOn(cfg: Config, chain: Chain, p: Proc, o: Observation)
    requires p.PrepareAuthorization? && p.trail != [] && p.trail[|p.trail| - 1].VerifyingAuthorization? && !o.fails
    requires IntakeBuilt(cfg, chain, p.base.commitment) && Separates(cfg, chain, p.base.commitment)
    requires StillFrozen(cfg, chain, p.base.commitment, o.block)
    ensures ActionAt(chain, p.base.commitment, o.block).Some?
    ensures Local(cfg, chain, p, o) ==
              Go(PrepareBlock(p.base, p.trail + [CapturingPrestate],
                              ActionAt(chain, p.base.commitment, o.block).value))
  {
    hide IntakeBuilt, Separates, AuthorizationAt, TryDecodeTransfer, FirstSelected;
    UnchangedHashMeansCovered(cfg, chain, p.base.commitment, o.block);
    FirstIsActionAt(chain, p.base.commitment, o.block);
  }

  lemma CaptureGoesOn(cfg: Config, chain: Chain, p: Proc, o: Observation)
    requires p.PrepareBlock? && p.trail != [] && FrozenAction(cfg, chain, p.base.commitment, p.action)
    requires IntakeBuilt(cfg, chain, p.base.commitment) && Separates(cfg, chain, p.base.commitment)
    ensures TryDecodeTransfer(p.action.signature, p.action.calldata).Some?
    ensures !o.fails && o.block < |chain.blocks| ==>
              Local(cfg, chain, p, o) == Go(PrepareSnapshot(p.base, p.trail, p.action, o.block))
  {
    hide IntakeBuilt, Separates, AuthorizationAt, TryDecodeTransfer, FirstSelected, StillFrozen, FinishPrepare;
    var b: nat :| StillFrozen(cfg, chain, p.base.commitment, b) &&
                  ActionAt(chain, p.base.commitment, b) == Some(p.action);
    UnchangedHashMeansCovered(cfg, chain, p.base.commitment, b);
  }
}
