/** Admission: seven stages over whatever the verifiers answer. */
module Admission {
  import opened Wrappers
  import T = Tier

  type Code = nat

  datatype Mode = Enforce | Observe

  datatype Stage = Identity | Surface | CardSignature | Provenance | Screening | Tier | Pin

  const STAGES: seq<Stage> := [Identity, Surface, CardSignature, Provenance, Screening, Tier, Pin]

  datatype Verdict = Passed | Skipped | Degraded

  datatype StageResult = StageResult(stage: Stage, verdict: Verdict)

  datatype Severity = Low | Medium | High | Critical

  datatype Finding = Finding(code: Code, detail: string, severity: Severity)

  datatype Posture = Attested | Unattested

  datatype FailDirection = Closed | ClosedUnlessObserve

  function FailureCode(stage: Stage): Code {
    match stage
    case Identity => 1001
    case Surface => 1002
    case CardSignature => 1003
    case Provenance => 1004
    case Screening => 1005
    case Tier => 1006
    case Pin => 1007
  }

  /** The fail direction the code table gives a stage's code. */
  function FailsTowards(stage: Stage): FailDirection {
    match stage
    case Identity | CardSignature | Provenance => ClosedUnlessObserve
    case Surface | Screening | Tier | Pin => Closed
  }

  predicate Denies(stage: Stage, mode: Mode) {
    match FailsTowards(stage)
    case Closed => true
    case ClosedUnlessObserve => mode == Enforce
  }

  // ---------------------------------------------------------------------------
  // What goes in and what comes out
  // ---------------------------------------------------------------------------

  /** A verifier's answer; `how` is what it says it did. */
  datatype Proof = Proof(verified: bool, how: string)

  datatype Screened = Screened(findings: seq<Finding>, blocked: bool, ran: bool)

  datatype Request = Request(
    kind: string,
    owner: string,
    zone: string,
    internal: bool,           // whether the zone's trust level is internal
    service: Option<string>,
    endpoint: Option<string>,
    declared: T.Declared,
    requestedTier: Option<int>,
    mode: Mode)

  /** Every answer the pipeline may ask for, each of which may instead be an error. */
  datatype Answers = Answers(
    id: string,               // whom the identity verifier names
    refs: seq<string>,        // what the provenance verifier cites
    identity: Result<Proof, Code>,
    surface: Result<T.Surface, Code>,
    card: Result<Proof, Code>,
    provenance: Result<Proof, Code>,
    screen: Result<Screened, Code>,
    pin: Result<string, Code>)

  datatype Entity = Entity(
    id: string,
    kind: string,
    owner: string,
    zone: string,
    tier: int,
    createdAt: nat,
    service: Option<string>,
    dataClasses: seq<string>,
    jurisdictions: seq<string>,
    endpoint: Option<string>,
    provenance: seq<string>,
    pin: string,
    posture: Posture,
    reattestedAt: nat)

  datatype Outcome = Outcome(entity: Entity, findings: seq<Finding>, stages: seq<StageResult>)

  // ---------------------------------------------------------------------------
  // Who is refused
  // ---------------------------------------------------------------------------

  function ErrorOf<V>(r: Result<V, Code>): Option<Code> {
    if r.Err? then Some(r.error) else None
  }

  /** The refusal of a stage that was answered, but not with yes. */
  function Unproven(stage: Stage, r: Result<Proof, Code>, mode: Mode): Option<Code> {
    if r.Ok? && !r.value.verified && Denies(stage, mode) then Some(FailureCode(stage)) else None
  }

  /** Grounds for refusal while identity and surface are established, in order. */
  function FirstGrounds(a: Answers, mode: Mode): seq<Option<Code>> {
    [ErrorOf(a.identity), Unproven(Identity, a.identity, mode), ErrorOf(a.surface)]
  }

  /** Grounds for refusal while card and provenance are, in order. */
  function ClaimGrounds(a: Answers, mode: Mode): seq<Option<Code>> {
    [ ErrorOf(a.card), Unproven(CardSignature, a.card, mode),
      ErrorOf(a.provenance), Unproven(Provenance, a.provenance, mode) ]
  }

  function EarlyGrounds(a: Answers, mode: Mode): seq<Option<Code>> {
    FirstGrounds(a, mode) + ClaimGrounds(a, mode)
  }

  /** Grounds for refusal in screening, tiering and pinning, in order. */
  function LateGrounds(a: Answers, tooSensitive: bool): seq<Option<Code>> {
    [ ErrorOf(a.screen),
      if a.screen.Ok? && a.screen.value.blocked then Some(FailureCode(Screening)) else None,
      if tooSensitive then Some(FailureCode(Tier)) else None,
      ErrorOf(a.pin) ]
  }

  function Grounds(req: Request, a: Answers, r: T.Rules): seq<Option<Code>> {
    EarlyGrounds(a, req.mode) + LateGrounds(a, a.surface.Ok? && TooSensitive(req, a.surface.value, r))
  }

  predicate TooSensitive(req: Request, s: T.Surface, r: T.Rules) {
    req.requestedTier.Some? && T.Derived(req.declared, s, req.internal, r) < req.requestedTier.value
  }

  function First(grounds: seq<Option<Code>>): (first: Option<Code>)
    ensures first.None? <==> forall i :: 0 <= i < |grounds| ==> grounds[i].None?
  {
    if grounds == [] then None
    else if grounds[0].Some? then grounds[0]
    else
      assert forall i :: 0 < i < |grounds| ==> grounds[i] == grounds[1..][i - 1];
      First(grounds[1..])
  }

  lemma {:induction false} FirstIs(grounds: seq<Option<Code>>, i: nat)
    requires i < |grounds| && grounds[i].Some? && forall k :: 0 <= k < i ==> grounds[k].None?
    ensures First(grounds) == grounds[i]
    decreases |grounds|
  {
    if i > 0 {
      FirstIs(grounds[1..], i - 1);
    }
  }

  lemma {:induction false} FirstOfBoth(early: seq<Option<Code>>, late: seq<Option<Code>>)
    ensures First(early + late) == if First(early).Some? then First(early) else First(late)
    decreases |early|
  {
    if early == [] {
      assert early + late == late;
    } else {
      assert (early + late)[0] == early[0] && (early + late)[1..] == early[1..] + late;
      FirstOfBoth(early[1..], late);
    }
  }

  // ---------------------------------------------------------------------------
  // The record of an admission
  // ---------------------------------------------------------------------------

  /** The finding an unproven stage leaves. */
  function Noted(stage: Stage, p: Proof, severity: Severity): seq<Finding> {
    if p.verified then [] else [Finding(FailureCode(stage), p.how, severity)]
  }

  ghost predicate AllAnswered(a: Answers) {
    a.identity.Ok? && a.surface.Ok? && a.card.Ok? && a.provenance.Ok? && a.screen.Ok? && a.pin.Ok?
  }

  ghost predicate AllProven(a: Answers)
    requires AllAnswered(a)
  {
    a.identity.value.verified && a.card.value.verified && a.provenance.value.verified
  }

  /** Whether one stage was satisfied rather than passed over. */
  ghost predicate Satisfied(stage: Stage, a: Answers)
    requires AllAnswered(a)
  {
    match stage
    case Identity => a.identity.value.verified
    case CardSignature => a.card.value.verified
    case Provenance => a.provenance.value.verified
    case Screening => a.screen.value.ran
    case Surface | Tier | Pin => true
  }

  /** Seven results in order, each passed or skipped as its verifier answered. */
  ghost predicate SevenStages(stages: seq<StageResult>, a: Answers)
    requires AllAnswered(a)
  {
    && |stages| == 7
    && (forall i :: 0 <= i < 7 ==> stages[i].stage == STAGES[i])
    && (forall i :: 0 <= i < 7 ==> stages[i].verdict == if Satisfied(STAGES[i], a) then Passed else Skipped)
  }

  function NotedByAll(identity: Proof, card: Proof, provenance: Proof): seq<Finding> {
    Noted(Identity, identity, High) + Noted(CardSignature, card, Medium) + Noted(Provenance, provenance, High)
  }

  ghost predicate Recorded(o: Outcome, req: Request, a: Answers, now: nat, r: T.Rules)
    requires AllAnswered(a)
  {
    && SevenStages(o.stages, a)
    && o.findings == NotedByAll(a.identity.value, a.card.value, a.provenance.value) + a.screen.value.findings
    && Registers(o.entity, req, a, now)
    && o.entity.tier == T.Derived(req.declared, a.surface.value, req.internal, r)
    && (o.entity.posture == Attested <==> AllProven(a))
    && o.entity.reattestedAt == (if AllProven(a) then now else 0)
  }

  /** The entity names whom the verifiers named, and says of it what the request declared. */
  ghost predicate Registers(e: Entity, req: Request, a: Answers, now: nat)
    requires AllAnswered(a)
  {
    && e.id == a.id && e.provenance == a.refs && e.pin == a.pin.value && e.createdAt == now
    && e.kind == req.kind && e.owner == req.owner && e.zone == req.zone
    && e.service == req.service && e.endpoint == req.endpoint
    && e.dataClasses == req.declared.dataClasses && e.jurisdictions == req.declared.jurisdictions
  }

  /** The stages and findings so far. */
  class Trail {
    var stages: seq<StageResult>
    var findings: seq<Finding>

    constructor ()
      ensures stages == [] && findings == []
    {
      stages, findings := [], [];
    }

    method Push(stage: Stage, verdict: Verdict)
      modifies this`stages
      ensures stages == old(stages) + [StageResult(stage, verdict)]
    {
      stages := stages + [StageResult(stage, verdict)];
    }

    /** A stage that passed, is refused, or is passed over with a finding: never silently. */
    method Record(stage: Stage, p: Proof, mode: Mode, severity: Severity) returns (refusal: Option<Code>)
      modifies this
      ensures refusal == Unproven(stage, Ok(p), mode)
      ensures refusal.Some? ==> stages == old(stages) && findings == old(findings)
      ensures refusal.None? ==>
                && stages == old(stages) + [StageResult(stage, if p.verified then Passed else Skipped)]
                && findings == old(findings) + Noted(stage, p, severity)
    {
      if p.verified {
        Push(stage, Passed);
        return None;
      }
      if Denies(stage, mode) {
        return Some(FailureCode(stage));
      }
      findings := findings + [Finding(FailureCode(stage), p.how, severity)];
      Push(stage, Skipped);
      return None;
    }
  }

  /** Stages one and two. */
  method Identify(trail: Trail, a: Answers, mode: Mode) returns (refusal: Option<Code>)
    requires trail.stages == [] && trail.findings == []
    modifies trail
    ensures refusal == First(FirstGrounds(a, mode))
    ensures refusal.None? ==>
              && a.identity.Ok? && a.surface.Ok?
              && trail.findings == Noted(Identity, a.identity.value, High)
              && trail.stages == TwoStages(a.identity.value)
  {
    ghost var grounds := FirstGrounds(a, mode);
    if a.identity.Err? { FirstIs(grounds, 0); return Some(a.identity.error); }
    refusal := trail.Record(Identity, a.identity.value, mode, High);
    if refusal.Some? { FirstIs(grounds, 1); return; }

    if a.surface.Err? { FirstIs(grounds, 2); return Some(a.surface.error); }
    trail.Push(Surface, Passed);
    assert forall i :: 0 <= i < |grounds| ==> grounds[i].None?;
  }

  function TwoStages(identity: Proof): seq<StageResult> {
    [StageResult(Identity, if identity.verified then Passed else Skipped), StageResult(Surface, Passed)]
  }

  /** Stages one to four. */
  method Establish(trail: Trail, a: Answers, mode: Mode) returns (refusal: Option<Code>)
    requires trail.stages == [] && trail.findings == []
    modifies trail
    ensures refusal == First(EarlyGrounds(a, mode))
    ensures refusal.None? ==>
              && a.identity.Ok? && a.surface.Ok? && a.card.Ok? && a.provenance.Ok?
              && trail.findings == NotedByAll(a.identity.value, a.card.value, a.provenance.value)
              && trail.stages == FourStages(a.identity.value, a.card.value, a.provenance.value)
  {
    FirstOfBoth(FirstGrounds(a, mode), ClaimGrounds(a, mode));
    ghost var grounds := ClaimGrounds(a, mode);
    refusal := Identify(trail, a, mode);
    if refusal.Some? { return; }

    if a.card.Err? { FirstIs(grounds, 0); return Some(a.card.error); }
    refusal := trail.Record(CardSignature, a.card.value, mode, Medium);
    if refusal.Some? { FirstIs(grounds, 1); return; }

    if a.provenance.Err? { FirstIs(grounds, 2); return Some(a.provenance.error); }
    refusal := trail.Record(Provenance, a.provenance.value, mode, High);
    if refusal.Some? { FirstIs(grounds, 3); return; }
    assert forall i :: 0 <= i < |grounds| ==> grounds[i].None?;
  }

  function FourStages(identity: Proof, card: Proof, provenance: Proof): seq<StageResult> {
    [ StageResult(Identity, if identity.verified then Passed else Skipped),
      StageResult(Surface, Passed),
      StageResult(CardSignature, if card.verified then Passed else Skipped),
      StageResult(Provenance, if provenance.verified then Passed else Skipped) ]
  }

  /** Stages five to seven, given the tier the surface derives. */
  method Conclude(trail: Trail, a: Answers, requestedTier: Option<int>, tier: int) returns (refusal: Option<Code>)
    modifies trail
    ensures refusal == First(LateGrounds(a, requestedTier.Some? && tier < requestedTier.value))
    ensures refusal.None? ==>
              && a.screen.Ok? && a.pin.Ok?
              && trail.findings == old(trail.findings) + a.screen.value.findings
              && trail.stages == old(trail.stages) + ThreeStages(a.screen.value)
  {
    ghost var grounds := LateGrounds(a, requestedTier.Some? && tier < requestedTier.value);
    if a.screen.Err? { FirstIs(grounds, 0); return Some(a.screen.error); }
    trail.findings := trail.findings + a.screen.value.findings;
    if a.screen.value.blocked { FirstIs(grounds, 1); return Some(FailureCode(Screening)); }
    trail.Push(Screening, if a.screen.value.ran then Passed else Skipped);

    if requestedTier.Some? && tier <= requestedTier.value && tier != requestedTier.value {
      FirstIs(grounds, 2);
      return Some(FailureCode(Tier));
    }
    trail.Push(Tier, Passed);

    if a.pin.Err? { FirstIs(grounds, 3); return Some(a.pin.error); }
    trail.Push(Pin, Passed);
    refusal := None;
    assert forall i :: 0 <= i < |grounds| ==> grounds[i].None?;
  }

  function ThreeStages(screen: Screened): seq<StageResult> {
    [ StageResult(Screening, if screen.ran then Passed else Skipped),
      StageResult(Tier, Passed),
      StageResult(Pin, Passed) ]
  }

  lemma FourAndThree(a: Answers)
    requires AllAnswered(a)
    ensures SevenStages(FourStages(a.identity.value, a.card.value, a.provenance.value) + ThreeStages(a.screen.value), a)
  {
  }

  /** Refused on the first ground there is, and admitted with a full record exactly when there is none. */
  method Admit(req: Request, a: Answers, now: nat, r: T.Rules) returns (result: Result<Outcome, Code>)
    ensures First(Grounds(req, a, r)) == if result.Err? then Some(result.error) else None
    ensures result.Ok? ==> AllAnswered(a) && Recorded(result.value, req, a, now, r)
  {
    var trail := new Trail();
    var refusal := Establish(trail, a, req.mode);
    FirstOfBoth(EarlyGrounds(a, req.mode), LateGrounds(a, a.surface.Ok? && TooSensitive(req, a.surface.value, r)));
    if refusal.Some? { return Err(refusal.value); }

    var tier, _ := T.DeriveTier(req.declared, a.surface.value, req.internal, r);
    refusal := Conclude(trail, a, req.requestedTier, tier);
    if refusal.Some? { return Err(refusal.value); }
    FourAndThree(a);

    var attested := a.identity.value.verified && a.card.value.verified && a.provenance.value.verified;
    var posture := if attested then Attested else Unattested;
    var reattestedAt := if posture == Attested then now else 0;
    var entity := Entity(a.id, req.kind, req.owner, req.zone, tier, now, req.service, req.declared.dataClasses,
                         req.declared.jurisdictions, req.endpoint, a.refs, a.pin.value, posture, reattestedAt);
    result := Ok(Outcome(entity, trail.findings, trail.stages));
  }

  /** Observing spares the three claims that can go unproven, and nothing else. */
  lemma ObservingSparesThree(stage: Stage, mode: Mode)
    ensures !Denies(stage, mode) <==> mode == Observe && stage in {Identity, CardSignature, Provenance}
  {
  }

  /** The stages have consecutive codes, in pipeline order. */
  lemma CodesFollowTheStages(i: nat)
    requires i < 7
    ensures |STAGES| == 7 && FailureCode(STAGES[i]) == 1001 + i
  {
  }

  lemma OnlyGround(grounds: seq<Option<Code>>, i: nat, code: Code)
    requires i < |grounds| && grounds[i] == Some(code) && forall k :: 0 <= k < i ==> grounds[k].None?
    ensures First(grounds) == Some(code)
  {
    FirstIs(grounds, i);
  }

  /** Everything is answered and in order up to the stage. */
  ghost predicate FineUpTo(a: Answers, stages: nat) {
    && (stages > 0 ==> a.identity.Ok? && a.identity.value.verified && a.surface.Ok?)
    && (stages > 1 ==> a.card.Ok? && a.card.value.verified)
    && (stages > 2 ==> a.provenance.Ok? && a.provenance.value.verified)
    && (stages > 3 ==> a.screen.Ok? && !a.screen.value.blocked)
  }

  predicate Fails(p: Result<Proof, Code>) {
    p.Ok? && !p.value.verified
  }

  lemma EarlyCodes(a: Answers)
    ensures Fails(a.identity) ==> First(EarlyGrounds(a, Enforce)) == Some(1001)
    ensures FineUpTo(a, 1) && Fails(a.card) ==> First(EarlyGrounds(a, Enforce)) == Some(1003)
    ensures FineUpTo(a, 2) && Fails(a.provenance) ==> First(EarlyGrounds(a, Enforce)) == Some(1004)
  {
    var first, claims := FirstGrounds(a, Enforce), ClaimGrounds(a, Enforce);
    FirstOfBoth(first, claims);
    if Fails(a.identity) { OnlyGround(first, 1, 1001); }
    if FineUpTo(a, 1) && Fails(a.card) { OnlyGround(claims, 1, 1003); }
    if FineUpTo(a, 2) && Fails(a.provenance) { OnlyGround(claims, 3, 1004); }
  }

  lemma LateCodes(a: Answers, tooSensitive: bool)
    ensures a.screen.Ok? && a.screen.value.blocked ==> First(LateGrounds(a, tooSensitive)) == Some(1005)
    ensures a.screen.Ok? && !a.screen.value.blocked && tooSensitive ==>
              First(LateGrounds(a, tooSensitive)) == Some(1006)
  {
    var late := LateGrounds(a, tooSensitive);
    if a.screen.Ok? && a.screen.value.blocked { OnlyGround(late, 1, 1005); }
    if a.screen.Ok? && !a.screen.value.blocked && tooSensitive { OnlyGround(late, 2, 1006); }
  }

  /** The code of each refusal, with everything before it in order: 1001, 1003 and 1004 when enforcing, 1005, 1006. */
  lemma RefusalCodes(req: Request, a: Answers, r: T.Rules)
    ensures var refusal := First(Grounds(req, a, r));
            && (req.mode == Enforce && Fails(a.identity) ==> refusal == Some(1001))
            && (req.mode == Enforce && FineUpTo(a, 1) && Fails(a.card) ==> refusal == Some(1003))
            && (req.mode == Enforce && FineUpTo(a, 2) && Fails(a.provenance) ==> refusal == Some(1004))
            && (FineUpTo(a, 3) && a.screen.Ok? && a.screen.value.blocked ==> refusal == Some(1005))
            && (FineUpTo(a, 4) && TooSensitive(req, a.surface.value, r) ==> refusal == Some(1006))
  {
    var tooSensitive := a.surface.Ok? && TooSensitive(req, a.surface.value, r);
    FirstOfBoth(EarlyGrounds(a, req.mode), LateGrounds(a, tooSensitive));
    EarlyCodes(a);
    EarlyAdmits(a, req.mode);
    LateCodes(a, tooSensitive);
  }

  // ---------------------------------------------------------------------------
  // What an admission says
  // ---------------------------------------------------------------------------

  predicate FullyAttested(o: Outcome) {
    forall s <- o.stages :: s.verdict == Passed
  }

  function SkippedIn(stages: seq<StageResult>): seq<Stage> {
    if stages == [] then []
    else (if stages[0].verdict == Skipped then [stages[0].stage] else []) + SkippedIn(stages[1..])
  }

  lemma {:induction false} SkippedAre(stages: seq<StageResult>, stage: Stage)
    ensures stage in SkippedIn(stages) <==> StageResult(stage, Skipped) in stages
    decreases |stages|
  {
    if stages != [] {
      SkippedAre(stages[1..], stage);
      assert stages == [stages[0]] + stages[1..];
    }
  }

  lemma StageAt(stages: seq<StageResult>, a: Answers, i: nat)
    requires AllAnswered(a) && SevenStages(stages, a) && i < 7
    ensures StageResult(STAGES[i], Skipped) in stages <==> !Satisfied(STAGES[i], a)
  {
    if !Satisfied(STAGES[i], a) {
      assert stages[i] == StageResult(STAGES[i], Skipped);
    }
  }

  lemma EmptyOrNot(stages: seq<Stage>)
    ensures stages == [] || exists stage :: stage in stages
  {
    assert stages == [] || stages[0] in stages;
  }

  /** `fully_attested` is strictly more than the attested posture: screening must have happened too. */
  lemma FullyAttestedMeans(o: Outcome, req: Request, a: Answers, now: nat, r: T.Rules)
    requires AllAnswered(a) && Recorded(o, req, a, now, r)
    ensures FullyAttested(o) <==> o.entity.posture == Attested && a.screen.value.ran
    ensures FullyAttested(o) ==> SkippedIn(o.stages) == []
    ensures forall result <- o.stages :: result.verdict != Degraded
  {
    assert forall i :: 0 <= i < 7 ==> o.stages[i] in o.stages;
    assert STAGES[0] == Identity && STAGES[2] == CardSignature && STAGES[3] == Provenance && STAGES[4] == Screening;
    if FullyAttested(o) {
      forall stage ensures stage !in SkippedIn(o.stages) { SkippedAre(o.stages, stage); }
      EmptyOrNot(SkippedIn(o.stages));
    }
  }

  function CountCode(findings: seq<Finding>, code: Code): nat {
    if findings == [] then 0 else (if findings[0].code == code then 1 else 0) + CountCode(findings[1..], code)
  }

  lemma {:induction false} CountJoins(a: seq<Finding>, b: seq<Finding>, code: Code)
    ensures CountCode(a + b, code) == CountCode(a, code) + CountCode(b, code)
    decreases |a|
  {
    if a == [] {
      assert a + b == b;
    } else {
      assert (a + b)[0] == a[0] && (a + b)[1..] == a[1..] + b;
      CountJoins(a[1..], b, code);
    }
  }

  lemma NotedOnce(stage: Stage, p: Proof, severity: Severity, code: Code)
    ensures CountCode(Noted(stage, p, severity), code) == if !p.verified && FailureCode(stage) == code then 1 else 0
  {
    var noted := Noted(stage, p, severity);
    assert noted != [] ==> noted[1..] == [];
  }

  /**
   * A stage of the first four that was passed over has one finding with its code beyond those screening made,
   * a stage that passed has none, and what was passed over is a stage the mode tolerates.
   */
  lemma SkippedStagesAreNotedOnce(o: Outcome, req: Request, a: Answers, now: nat, r: T.Rules, i: nat)
    requires AllAnswered(a) && Recorded(o, req, a, now, r) && First(Grounds(req, a, r)).None?
    requires i < 4
    ensures CountCode(o.findings, FailureCode(STAGES[i])) - CountCode(a.screen.value.findings, FailureCode(STAGES[i]))
            == if STAGES[i] in SkippedIn(o.stages) then 1 else 0
    ensures STAGES[i] in SkippedIn(o.stages) ==> !Denies(STAGES[i], req.mode)
  {
    var stage, code := STAGES[i], FailureCode(STAGES[i]);
    SkippedAre(o.stages, stage);
    StageAt(o.stages, a, i);
    CountNoted(a, code);
    CountJoins(NotedByAll(a.identity.value, a.card.value, a.provenance.value), a.screen.value.findings, code);
    NotRefusedMeansTolerated(req, a, r);
  }

  lemma CountNoted(a: Answers, code: Code)
    requires AllAnswered(a)
    ensures CountCode(NotedByAll(a.identity.value, a.card.value, a.provenance.value), code)
            == (if !a.identity.value.verified && code == 1001 then 1 else 0)
             + (if !a.card.value.verified && code == 1003 then 1 else 0)
             + (if !a.provenance.value.verified && code == 1004 then 1 else 0)
  {
    var i, c := Noted(Identity, a.identity.value, High), Noted(CardSignature, a.card.value, Medium);
    var p := Noted(Provenance, a.provenance.value, High);
    CountJoins(i + c, p, code);
    CountJoins(i, c, code);
    NotedOnce(Identity, a.identity.value, High, code);
    NotedOnce(CardSignature, a.card.value, Medium, code);
    NotedOnce(Provenance, a.provenance.value, High, code);
  }

  lemma NotRefusedMeansTolerated(req: Request, a: Answers, r: T.Rules)
    requires AllAnswered(a) && First(Grounds(req, a, r)).None?
    ensures !a.identity.value.verified ==> !Denies(Identity, req.mode)
    ensures !a.card.value.verified ==> !Denies(CardSignature, req.mode)
    ensures !a.provenance.value.verified ==> !Denies(Provenance, req.mode)
  {
    var early := EarlyGrounds(a, req.mode);
    FirstOfBoth(early, LateGrounds(a, TooSensitive(req, a.surface.value, r)));
    assert early[1].None? && early[4].None? && early[6].None?;
  }

  /** Enforcing admits exactly what observing admits with all three proofs in hand, so only the attested. */
  lemma EnforcingAdmitsTheProven(req: Request, a: Answers, r: T.Rules)
    ensures First(Grounds(req.(mode := Enforce), a, r)).None? <==>
            First(Grounds(req.(mode := Observe), a, r)).None? && AllAnswered(a) && AllProven(a)
  {
    var late := LateGrounds(a, a.surface.Ok? && TooSensitive(req, a.surface.value, r));
    FirstOfBoth(EarlyGrounds(a, Enforce), late);
    FirstOfBoth(EarlyGrounds(a, Observe), late);
    EarlyAdmits(a, Enforce);
    EarlyAdmits(a, Observe);
    LateAdmits(a, a.surface.Ok? && TooSensitive(req, a.surface.value, r));
  }

  lemma EarlyAdmits(a: Answers, mode: Mode)
    ensures First(EarlyGrounds(a, mode)).None? <==>
            (&& a.identity.Ok? && a.surface.Ok? && a.card.Ok? && a.provenance.Ok?
             && (mode == Observe
                 || (a.identity.value.verified && a.card.value.verified && a.provenance.value.verified)))
  {
    var early := EarlyGrounds(a, mode);
    assert First(early).None? <==> (&& early[0].None? && early[1].None? && early[2].None? && early[3].None?
                                    && early[4].None? && early[5].None? && early[6].None?);
  }

  lemma LateAdmits(a: Answers, tooSensitive: bool)
    ensures First(LateGrounds(a, tooSensitive)).None? <==>
            a.screen.Ok? && !a.screen.value.blocked && !tooSensitive && a.pin.Ok?
  {
    var late := LateGrounds(a, tooSensitive);
    assert First(late).None? <==> late[0].None? && late[1].None? && late[2].None? && late[3].None?;
  }
}
