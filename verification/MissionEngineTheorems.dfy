/** What the theorems about passes say of a call of the engine. */
module MissionEngineTheorems {
  import Prelude
  import Redaction
  import opened MissionGraph
  import opened CommandJournals
  import opened MissionRuns
  import opened MissionSafety
  import opened MissionOutcomes
  import opened MissionTheorems
  import opened MissionEngines

  /** The world that answers a step with what the pass saw there, and any other step with a crash. */
  function WorldSeen(order: seq<string>, seen: seq<Circumstance>, id: string): Circumstance
    decreases |order|
  {
    if order == [] || seen == [] then Circumstance(false, false, Prelude.None, Raised, Pending, false, BeforeStep)
    else if order[0] == id then seen[0]
    else WorldSeen(order[1..], seen[1..], id)
  }

  lemma {:induction false} WorldSeenAgrees(order: seq<string>, seen: seq<Circumstance>, j: nat)
    requires NoDuplicates(order) && |seen| <= |order| && j < |seen|
    ensures WorldSeen(order, seen, order[j]) == seen[j]
    decreases j
  {
    if j > 0 {
      assert order[0] != order[j] && order[1..][j - 1] == order[j] && seen[1..][j - 1] == seen[j];
      WorldSeenAgrees(order[1..], seen[1..], j - 1);
    }
  }

  lemma AgreeingWorld(order: seq<string>, seen: seq<Circumstance>) returns (w: World)
    requires NoDuplicates(order) && |seen| <= |order|
    ensures Agrees(w, order, seen)
  {
    w := id => WorldSeen(order, seen, id);
    forall j | 0 <= j < |seen| ensures w(order[j]) == seen[j] {
      WorldSeenAgrees(order, seen, j);
    }
  }

  /** A pass of the engine from a sound run leaves a sound run, in which succeeded steps, attempts,
      commands and calls are kept; and a complete pass blocks exactly the dependents of failed
      steps, and reports the steps it executed and skipped. */
  lemma EnginePassKeepsGuarantees(steps: Steps, hash: KeyHash, order: seq<string>, run: MissionRun, seen: seq<Circumstance>, r: PassResult)
    requires IsTopologicalOrder(steps, order) && Injective(hash) && Sound(steps, hash, run)
    requires EndsWith(steps, hash, order, run, seen, r)
    ensures Sound(steps, hash, r.run) && Advances(run, r.run)
    ensures r.outcome.Stopped? ==> r.outcome.reason != WaitingDependency && (NoneRunning(run) ==> r.outcome.reason != TransitionRejected)
    ensures !r.outcome.Stopped? ==> CompleteRun(steps, r.run) && Reports(order, run, [], [], r)
  {
    var w := AgreeingWorld(order, seen);
    assert Drive(steps, hash, w, order, run) == r;
    DriveFromAdvances(steps, hash, w, order, 0, run, [], []);
    DriveFromEndsWell(steps, hash, w, order, 0, run, [], []);
    if !r.outcome.Stopped? {
      CompletePassFromSound(steps, hash, order, run, w);
      DriveFromReports(steps, hash, w, order, 0, run, [], []);
      assert order[0..] == order;
    }
  }

  /** A run can be resumed with the inputs it was started with, and with the redacted inputs that
      were persisted for it: both give the contract of its metadata. */
  lemma ResumeAcceptsPersistedInputs(rules: InputRules, versions: Versions, supplied: seq<Redaction.Field>)
    requires Redaction.Stable(rules.patterns) && Redaction.UniqueNames(rules.defs)
    requires ContractFor(rules, versions, supplied).Ok?
    ensures var persisted := Redaction.ResolveInputs(rules.patterns, rules.defs, supplied);
            persisted.Ok? && ContractFor(rules, versions, persisted.value) == ContractFor(rules, versions, supplied)
  {
    Redaction.ResolveIsIdempotent(rules.patterns, rules.defs, supplied);
  }
}
