/** The operation manifest and its chained integrity hashes. */
module Manifest {
  import opened Texts
  import opened Digests

  datatype Manifest = Manifest(
    payload: Payload, operationHash: HashText, planHash: HashText, approvalHash: HashText, executionHash: HashText)

  const APPROVED_STAGES := {OperationStatus.APPROVED, READY, EXECUTING, VALIDATING, MONITORING, COMPLETED}
  const EXECUTED_STAGES := {EXECUTING, VALIDATING, MONITORING, COMPLETED}

  /** `refresh_integrity` of a payload. */
  function Sealed(p: Payload): Manifest {
    var operation := Digest(OperationBody(p));
    var plan := Digest(PlanStage(operation, p));
    var approval := if p.status in APPROVED_STAGES then Digest(ApprovalStage(operation, plan)) else Empty;
    var execution := if p.status in EXECUTED_STAGES then Digest(ExecutionStage(operation, plan, approval)) else Empty;
    Manifest(p, operation, plan, approval, execution)
  }

  predicate OptionalSafe(x: Screen, t: Option<string>) {
    t.Some? && t.value != "" ==> x.Safe(t.value, 512)
  }

  predicate ListsSafe(x: Screen, l: Lists) {
    forall list | list in [l.commands, l.files, l.servicesAffected, l.dependencies, l.testsRequired,
      l.validationSteps] ::
      |list| <= 128 && forall t | t in list :: x.Safe(t, 512)
  }

  predicate HashSafe(x: Screen, h: HashText) {
    h.Written? && h.text != "" ==> x.Safe(h.text, 512)
  }

  /** `__post_init__` */
  predicate Valid(x: Screen, p: Payload) {
    && (forall t | t in [p.operationId, p.project, p.server, p.environment, p.resource, p.requestedBy,
                         p.requestedAction, p.agent, p.riskLevel, p.createdAt, p.dataRisk] :: x.Safe(t, 512))
    && ListsSafe(x, p.lists)
    && (forall t | t in [p.backupId, p.branch, p.commit, Some(p.rollbackPlan), Some(p.expectedResult),
                         p.approvedAt, p.executedAt, p.completedAt] :: OptionalSafe(x, t))
  }

  /** What a manifest demands of its texts, member by member. */
  lemma ValidExactly(x: Screen, p: Payload)
    ensures Valid(x, p) <==>
      && x.Safe(p.operationId, 512) && x.Safe(p.project, 512) && x.Safe(p.server, 512) && x.Safe(p.environment, 512)
      && x.Safe(p.resource, 512) && x.Safe(p.requestedBy, 512) && x.Safe(p.requestedAction, 512) && x.Safe(p.agent, 512)
      && x.Safe(p.riskLevel, 512) && x.Safe(p.createdAt, 512) && x.Safe(p.dataRisk, 512)
      && ListSafe(x, p.lists.commands) && ListSafe(x, p.lists.files) && ListSafe(x, p.lists.servicesAffected)
      && ListSafe(x, p.lists.dependencies) && ListSafe(x, p.lists.testsRequired) && ListSafe(x, p.lists.validationSteps)
      && OptionalSafe(x, p.backupId) && OptionalSafe(x, p.branch) && OptionalSafe(x, p.commit)
      && OptionalSafe(x, Some(p.rollbackPlan)) && OptionalSafe(x, Some(p.expectedResult))
      && OptionalSafe(x, p.approvedAt) && OptionalSafe(x, p.executedAt) && OptionalSafe(x, p.completedAt)
  {
    RequiredTexts(x, p);
    Lists6(x, p.lists);
    OptionalTexts(x, p);
  }

  predicate ListSafe(x: Screen, l: seq<string>) {
    |l| <= 128 && forall t | t in l :: x.Safe(t, 512)
  }

  lemma RequiredTexts(x: Screen, p: Payload)
    ensures (forall t | t in [p.operationId, p.project, p.server, p.environment, p.resource, p.requestedBy,
                              p.requestedAction, p.agent, p.riskLevel, p.createdAt, p.dataRisk] :: x.Safe(t, 512)) <==>
      && x.Safe(p.operationId, 512) && x.Safe(p.project, 512) && x.Safe(p.server, 512) && x.Safe(p.environment, 512)
      && x.Safe(p.resource, 512) && x.Safe(p.requestedBy, 512) && x.Safe(p.requestedAction, 512) && x.Safe(p.agent, 512)
      && x.Safe(p.riskLevel, 512) && x.Safe(p.createdAt, 512) && x.Safe(p.dataRisk, 512)
  {
    var ts := [p.operationId, p.project, p.server, p.environment, p.resource, p.requestedBy, p.requestedAction, p.agent,
               p.riskLevel, p.createdAt, p.dataRisk];
    assert ts[0] in ts && ts[1] in ts && ts[2] in ts && ts[3] in ts && ts[4] in ts && ts[5] in ts && ts[6] in ts
      && ts[7] in ts && ts[8] in ts && ts[9] in ts && ts[10] in ts;
  }

  lemma Lists6(x: Screen, l: Lists)
    ensures ListsSafe(x, l) <==>
      && ListSafe(x, l.commands) && ListSafe(x, l.files) && ListSafe(x, l.servicesAffected)
      && ListSafe(x, l.dependencies) && ListSafe(x, l.testsRequired) && ListSafe(x, l.validationSteps)
  {
    var ls := [l.commands, l.files, l.servicesAffected, l.dependencies, l.testsRequired, l.validationSteps];
    assert ls[0] in ls && ls[1] in ls && ls[2] in ls && ls[3] in ls && ls[4] in ls && ls[5] in ls;
  }

  lemma OptionalTexts(x: Screen, p: Payload)
    ensures (forall t | t in [p.backupId, p.branch, p.commit, Some(p.rollbackPlan), Some(p.expectedResult),
                              p.approvedAt, p.executedAt, p.completedAt] :: OptionalSafe(x, t)) <==>
      && OptionalSafe(x, p.backupId) && OptionalSafe(x, p.branch) && OptionalSafe(x, p.commit)
      && OptionalSafe(x, Some(p.rollbackPlan)) && OptionalSafe(x, Some(p.expectedResult))
      && OptionalSafe(x, p.approvedAt) && OptionalSafe(x, p.executedAt) && OptionalSafe(x, p.completedAt)
  {
    var ts := [p.backupId, p.branch, p.commit, Some(p.rollbackPlan), Some(p.expectedResult), p.approvedAt,
               p.executedAt, p.completedAt];
    assert ts[0] in ts && ts[1] in ts && ts[2] in ts && ts[3] in ts && ts[4] in ts && ts[5] in ts && ts[6] in ts
      && ts[7] in ts;
  }

  /** `create`; None when it raises. */
  function Create(x: Screen, p: Payload): Option<Manifest> {
    if Valid(x, p) && p.approvedAt == p.executedAt == p.completedAt == None then Some(Sealed(p)) else None
  }

  /** The members that a status change may replace. */
  datatype Changes = Changes(backupId: Option<string>, approvedAt: Option<string>)

  function Changed(p: Payload, status: OperationStatus, c: Changes): Payload {
    p.(status := status,
       backupId := if c.backupId.Some? then c.backupId else p.backupId,
       approvedAt := if c.approvedAt.Some? then c.approvedAt else p.approvedAt)
  }

  /** `with_status`; None when the new members are unsafe. */
  function WithStatus(x: Screen, m: Manifest, status: OperationStatus, c: Changes): Option<Manifest> {
    var p := Changed(m.payload, status, c);
    if Valid(x, p) then Some(Sealed(p)) else None
  }

  // ----- the stored form -----

  /** `as_dict`; the derived scope member is left out. */
  datatype Document = Document(payload: Payload, status: EnumText<OperationStatus>, hashes: Hashes)
  datatype Hashes = Hashes(operation: HashText, plan: HashText, approval: HashText, execution: HashText)

  function AsDict(m: Manifest): Document {
    Document(m.payload, Known(m.payload.status), Hashes(m.operationHash, m.planHash, m.approvalHash, m.executionHash))
  }

  /** `str.upper`, as far as the risk labels can tell: of the letters outside ASCII only the dotless i
      has an upper case that is made of letters of a label. */
  function Upper(s: string): string {
    if s == "" then ""
    else [if 'a' <= s[0] <= 'z' then s[0] - 'a' + 'A' else if s[0] == '\U{131}' then 'I' else s[0]] + Upper(s[1..])
  }

  /** `risk_level_for` */
  function RiskLevelFor(risk: string): Option<string> {
    var n := Upper(Strip(risk));
    if n == "LOW" then Some("L1")
    else if n == "MEDIUM" then Some("L2")
    else if n == "HIGH" then Some("L3")
    else if n == "CRITICAL" then Some("L4")
    else if n in {"L1", "L2", "L3", "L4"} then Some(n)
    else None
  }

  function HashesOf(m: Manifest): Hashes {
    Hashes(m.operationHash, m.planHash, m.approvalHash, m.executionHash)
  }

  /** `manifest_from_dict`.  What is accepted is sealed, valid and on the L1 to L4 scale, and a document
      that carries hashes carries exactly the ones of the manifest it decodes to. */
  function FromDict(x: Screen, d: Document): (m: Option<Manifest>)
    ensures m.Some? ==> m.value == Sealed(m.value.payload) && Valid(x, m.value.payload)
    ensures m.Some? && d.hashes.operation !in {Empty, Written("")} ==>
      d.hashes == HashesOf(m.value) && d.status == Known(m.value.payload.status)
  {
    var risk := RiskLevelFor(d.payload.riskLevel);
    if d.status.Unknown? || risk == None then None
    else
      var p := d.payload.(riskLevel := risk.value, status := d.status.value);
      if !Valid(x, p) || !HashSafe(x, d.hashes.operation) || !HashSafe(x, d.hashes.plan)
         || !HashSafe(x, d.hashes.approval) || !HashSafe(x, d.hashes.execution) then None
      else if d.hashes.operation == Empty || d.hashes.operation == Written("") then Some(Sealed(p))
      else if d.hashes == HashesOf(Sealed(p)) then Some(Sealed(p))
      else None
  }

  /** Letter by letter: a to z and the dotless i go to A to Z. */
  lemma {:induction false} UpperAt(s: string, i: nat)
    requires i < |s|
    ensures |Upper(s)| == |s|
    ensures var n := s[i] as int; Upper(s)[i] as int == if 97 <= n <= 122 then n - 32 else if n == 0x131 then 73 else n
  {
    if |s| > 1 { UpperAt(s[1..], if i > 0 then i - 1 else 0); }
  }

  /** The risk labels that are understood, apart from letter case and surrounding white space. */
  lemma RiskLevelsExactly(risk: string)
    ensures var n := Upper(Strip(risk));
      RiskLevelFor(risk) ==
        match n
        case "LOW" => Some("L1")
        case "MEDIUM" => Some("L2")
        case "HIGH" => Some("L3")
        case "CRITICAL" => Some("L4")
        case _ => if n == "L1" || n == "L2" || n == "L3" || n == "L4" then Some(n) else None
  {
  }

  predicate Normal(risk: string) {
    risk in {"L1", "L2", "L3", "L4"}
  }

  lemma RiskLevelIsNormal(risk: string)
    ensures RiskLevelFor(risk).Some? ==> Normal(RiskLevelFor(risk).value)
  {
  }

  lemma NormalIsFixed(risk: string)
    ensures Normal(risk) ==> RiskLevelFor(risk) == Some(risk)
  {
    if Normal(risk) {
      assert StripLeft(risk) == risk && StripRight(risk) == risk;
      assert risk[1..][1..] == "";
      assert Upper(risk[1..]) == risk[1..] by {
        assert risk[1..] == [risk[1]];
      }
      assert risk == [risk[0]] + risk[1..];
    }
  }

  /** A manifest that was ever sealed decodes from its own document to itself if and only if its risk
      level is one of L1 to L4; otherwise the document is refused. */
  lemma SealedManifestsRoundTrip(x: Screen, p: Payload)
    requires Valid(x, p)
    ensures FromDict(x, AsDict(Sealed(p))) == if Normal(p.riskLevel) then Some(Sealed(p)) else None
  {
    RiskLevelIsNormal(p.riskLevel);
    NormalIsFixed(p.riskLevel);
    var risk := RiskLevelFor(p.riskLevel);
    if risk.Some? && risk.value != p.riskLevel {
      var q := p.(riskLevel := risk.value);
      assert Sealed(q).operationHash != Sealed(p).operationHash;
    }
  }

  /** Whatever else a document says, if it carries the operation hash of a sealed manifest and is
      accepted, it decodes to exactly that manifest. */
  lemma AcceptedDocumentsAreUntampered(x: Screen, p: Payload, d: Document)
    requires d.hashes.operation == Sealed(p).operationHash && FromDict(x, d).Some?
    ensures FromDict(x, d).value == Sealed(p) && d.hashes == HashesOf(Sealed(p)) && d.status == Known(p.status)
  {
  }

  // ----- chains of status changes -----

  /** A manifest and every status change applied to it, refused changes skipped. */
  function Chain(x: Screen, m: Manifest, steps: seq<(OperationStatus, Changes)>): Manifest {
    if steps == [] then m
    else
      var before := Chain(x, m, steps[..|steps| - 1]);
      var (status, c) := steps[|steps| - 1];
      var next := WithStatus(x, before, status, c);
      if next.Some? then next.value else before
  }

  /** Which hashes a sealed manifest carries. */
  lemma StagesExactly(p: Payload)
    ensures Sealed(p).operationHash != Empty && Sealed(p).planHash != Empty
    ensures Sealed(p).approvalHash != Empty <==>
      p.status in {OperationStatus.APPROVED, READY, EXECUTING, VALIDATING, MONITORING, COMPLETED}
    ensures Sealed(p).executionHash != Empty <==> p.status in {EXECUTING, VALIDATING, MONITORING, COMPLETED}
  {
  }

  lemma {:induction false} ChainsStayValid(x: Screen, p: Payload, steps: seq<(OperationStatus, Changes)>)
    requires Valid(x, p)
    ensures var m := Chain(x, Sealed(p), steps);
      && Valid(x, m.payload) && m == Sealed(m.payload)
      && m.payload.(status := p.status, backupId := p.backupId, approvedAt := p.approvedAt) == p
  {
    if steps != [] {
      ChainsStayValid(x, p, steps[..|steps| - 1]);
    }
  }

  /** Over every chain of status changes: the hashes are current, the approval and execution hashes
      are present exactly in their stages, and only three members ever differ from the original. */
  lemma ChainsStaySealed(x: Screen, p: Payload, steps: seq<(OperationStatus, Changes)>)
    requires Valid(x, p)
    ensures var m := Chain(x, Sealed(p), steps);
      && Valid(x, m.payload) && m == Sealed(m.payload)
      && (m.approvalHash != Empty <==>
            m.payload.status in {OperationStatus.APPROVED, READY, EXECUTING, VALIDATING, MONITORING, COMPLETED})
      && (m.executionHash != Empty <==> m.payload.status in {EXECUTING, VALIDATING, MONITORING, COMPLETED})
      && m.payload.(status := p.status, backupId := p.backupId, approvedAt := p.approvedAt) == p
  {
    ChainsStayValid(x, p, steps);
    StagesExactly(Chain(x, Sealed(p), steps).payload);
  }

  /** Whatever happened since, putting the three changeable members back and digesting again gives
      the operation hash that the approver saw. */
  lemma RewindRecoversTheApprovedHash(x: Screen, p: Payload, steps: seq<(OperationStatus, Changes)>)
    requires Valid(x, p)
    ensures var m := Chain(x, Sealed(p), steps);
      Sealed(m.payload.(status := p.status, backupId := p.backupId, approvedAt := p.approvedAt)).operationHash
        == Sealed(p).operationHash
  {
    ChainsStayValid(x, p, steps);
  }
}
