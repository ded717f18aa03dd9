/** Who may decide about a workspace's custom domains, and what a repeated decision gets (internal/admin). */
module DomainDecisions {
  import opened Foundations
  import opened DomainGovernance
  import D = DomainEntitlement

  const MFA_FRESHNESS: nat := 600_000_000

  /** The administrator's session and the headers of the request; key is the idempotency key. */
  datatype Authority = Authority(permitted: bool, mfaVerifiedAt: Option<Micros>, key: nat)

  datatype Submission = Submission(decision: Decision, authority: Authority)

  datatype ActionName = Approving | Denying | Suspending | Revoking | Restoring

  function NameOf(action: Action): ActionName {
    match action
    case Approve(_, _, _, _) => Approving
    case Deny(_) => Denying
    case Suspend(_) => Suspending
    case Revoke => Revoking
    case Restore(_) => Restoring
  }

  datatype RecordKey = RecordKey(actor: nat, name: ActionName, key: nat)

  function KeyOf(s: Submission): RecordKey { RecordKey(s.decision.actor, NameOf(s.decision.action), s.authority.key) }

  datatype Answer = Answer(id: nat, workspace: nat, name: ActionName, entitlement: D.Resolved, affectedRoutes: nat)

  /** workspace and action stand for the fingerprint of the request. */
  datatype Record = Record(workspace: nat, action: Action, answer: Answer)

  datatype Desk = Desk(world: World, records: map<RecordKey, Record>)

  /** RequireHighRisk. */
  function HighRisk(s: Submission): Option<Error> {
    var mfa := s.authority.mfaVerifiedAt;
    if !s.authority.permitted then Some(Forbidden)
    else if s.decision.reason == 0 then Some(ReasonRequired)
    else if s.authority.key == 0 then Some(InvalidInput)
    else if mfa.None? || s.decision.now > mfa.value + MFA_FRESHNESS then Some(MfaRequired)
    else None
  }

  predicate WellFormedDecision(d: Decision) { d.workspace != 0 && d.actor != 0 && ValidAction(d.action, d.now) }

  /** DecideDomainEntitlement; the flag says that the answer was replayed. */
  function Submit(desk: Desk, s: Submission): Result<(Desk, Answer, bool)> {
    var d := s.decision;
    if HighRisk(s).Some? then Failure(HighRisk(s).value)
    else if !WellFormedDecision(d) then Failure(InvalidInput)
    else if KeyOf(s) in desk.records then
      var known := desk.records[KeyOf(s)];
      if known.workspace != d.workspace || known.action != d.action then Failure(ReplayMismatch)
      else Success((desk, known.answer, true))
    else
      var done :- Decide(desk.world, d);
      var after :- ResolveIn(done.0, d.workspace, d.now);
      var answer := Answer(d.id, d.workspace, NameOf(d.action), after, done.1);
      Success((Desk(done.0, desk.records[KeyOf(s) := Record(d.workspace, d.action, answer)]), answer, false))
  }

  // ---------------------------------------------------------------- repeated decisions

  /** Decisions, and whatever else changes the tables in between. */
  datatype DeskStep = Submitting(submission: Submission) | Changing(world: World)

  function NextDesk(desk: Desk, step: DeskStep): Desk {
    match step
    case Submitting(s) => var r := Submit(desk, s); if r.Success? then r.value.0 else desk
    case Changing(world) => desk.(world := world)
  }

  function DeskRun(desk: Desk, steps: seq<DeskStep>): Desk {
    if steps == [] then desk else NextDesk(DeskRun(desk, steps[..|steps| - 1]), steps[|steps| - 1])
  }

  /** A record is never changed or lost. */
  lemma {:induction false} RecordStays(desk: Desk, steps: seq<DeskStep>, key: RecordKey)
    requires key in desk.records
    ensures key in DeskRun(desk, steps).records && DeskRun(desk, steps).records[key] == desk.records[key]
  {
    if steps != [] {
      hide Decide, ResolveIn;
      RecordStays(desk, steps[..|steps| - 1], key);
    }
  }

  /**
   * A decision taken once is answered the same for ever: whatever happened since, an admitted repetition of
   * it under its key returns the answer on record and changes nothing, another request under that key is
   * refused, and there is no third case.
   */
  lemma ReplayExactly(desk: Desk, first: Submission, steps: seq<DeskStep>, again: Submission)
    requires Submit(desk, first).Success? && KeyOf(again) == KeyOf(first)
    ensures var (taken, answer) := (Submit(desk, first).value.0, Submit(desk, first).value.1);
            var later := DeskRun(taken, steps);
            && (Submit(later, again).Success? <==>
                  HighRisk(again).None? && WellFormedDecision(again.decision)
                  && again.decision.workspace == first.decision.workspace
                    && again.decision.action == first.decision.action)
            && (Submit(later, again).Success? ==> Submit(later, again).value == (later, answer, true))
            && NextDesk(later, Submitting(again)) == later
  {
    hide Decide, ResolveIn, DeskRun, ValidAction;
    RecordStays(Submit(desk, first).value.0, steps, KeyOf(first));
  }

  /** Every step that changes the tables by a decision is an admitted one whose key is new. */
  lemma ActsUnderFreshKey(desk: Desk, s: Submission)
    requires NextDesk(desk, Submitting(s)) != desk
    ensures HighRisk(s).None? && KeyOf(s) !in desk.records && Decide(desk.world, s.decision).Success?
    ensures NextDesk(desk, Submitting(s)).world == Decide(desk.world, s.decision).value.0
    ensures NextDesk(desk, Submitting(s)).records.Keys == desk.records.Keys + {KeyOf(s)}
  {
    hide Decide, ResolveIn, ValidAction;
  }

  /** How often a run decided under a key. */
  function Decided(desk: Desk, steps: seq<DeskStep>, key: RecordKey): nat {
    if steps == [] then 0
    else
      var (n, step) := (|steps| - 1, steps[|steps| - 1]);
      var before := DeskRun(desk, steps[..n]);
      Decided(desk, steps[..n], key)
      + if step.Submitting? && KeyOf(step.submission) == key && NextDesk(before, step) != before then 1 else 0
  }

  /** Over any run a key decides exactly once if the run put it on record, and never otherwise. */
  lemma {:induction false} DecidesOnce(desk: Desk, steps: seq<DeskStep>, key: RecordKey)
    ensures Decided(desk, steps, key)
         == if key in DeskRun(desk, steps).records && key !in desk.records then 1 else 0
  {
    if steps != [] {
      hide Decide, ResolveIn, NextDesk;
      var (n, step) := (|steps| - 1, steps[|steps| - 1]);
      DecidesOnce(desk, steps[..n], key);
      if key in desk.records { RecordStays(desk, steps[..n], key); }
      StepDecides(DeskRun(desk, steps[..n]), step, key);
    }
  }

  lemma StepDecides(desk: Desk, step: DeskStep, key: RecordKey)
    ensures key in NextDesk(desk, step).records <==>
      key in desk.records || (step.Submitting? && KeyOf(step.submission) == key && NextDesk(desk, step) != desk)
    ensures step.Submitting? && KeyOf(step.submission) == key && NextDesk(desk, step) != desk ==> key !in desk.records
  {
    hide Decide, ResolveIn, ValidAction;
  }
}
