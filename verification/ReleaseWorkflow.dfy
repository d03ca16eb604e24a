/** The managers joined to the filesystem release provider and the fixed activation boundary. */
module ReleaseWorkflow {
  import opened Texts
  import opened Trees
  import opened Paths
  import opened Archive
  import opened ReleaseStore
  import opened ReleaseProofs
  import Runs = ReleaseRuns
  import A = ServiceActivation
  import B = Backups
  import D = Deployments
  import R = Rollbacks

  /** The result texts of the release provider, by what they print. */
  datatype Note =
    | ReleaseReady(project: Path, commit: Path, files: nat, total: nat)
    | PointerValidated
    | PointerNotValidated
    | RollbackReady(project: Path, target: Path)

  /** The graph of collaborators.  `fixed` is the activation provider, if one is configured;
      `provider` says that the filesystem release provider is present and enabled; the last three
      fields are its two names and the texts of its notes. */
  datatype Graph = Graph(
    screen: Screen, fixed: Option<A.Fixed>, provider: bool, backups: bool, backupProvider: bool, validator: bool,
    artifacts: map<Path, Tree>, safe: Content -> bool, name: string, checker: string, render: Note -> string)

  function DeploySetup(g: Graph): D.Setup {
    D.Setup(g.fixed.Some?, g.provider, g.backups, g.backupProvider, g.validator)
  }

  function RollbackSetup(g: Graph): R.Setup {
    R.Setup(g.fixed.Some?, g.provider)
  }

  /** Everything the workflow owns. */
  datatype Desk = Desk(deployments: D.Book, rollbacks: R.Book, backups: map<string, B.Record>, disk: Disk)

  datatype Event =
    | BackupEvent(backup: B.Event, at: int)
    | DeployEvent(deploy: D.Event)
    | RunDeploy(id: string, fault: Fault, runner: Option<A.Evidence>, now: int)
    | RollbackEvent(rollback: R.Event)
    | RunRollback(id: string, pointerFails: bool, runner: Option<A.Evidence>)

  // ----- what the provider does and answers -----

  function DeployDisk(g: Graph, d: Disk, p: D.Plan, fault: Fault): (Disk, Outcome) {
    match Admit(g.artifacts, p.project, p.commit)
    case None => (d, Failed)
    case Some(r) => Deployed(d, r, g.safe, fault)
  }

  /** The post-check on the disk. */
  predicate Released(d: Disk, project: string, commit: string) {
    && SafeRelative(project).Some? && SafeRelative(commit).Some?
    && IsDir(d, SafeRelative(project).value + SafeRelative(commit).value)
    && ReadCurrent(d, SafeRelative(project).value) == Some(Posix(SafeRelative(commit).value))
  }

  /** The path of an accepted name. */
  function PathOf(name: string): Path {
    match SafeRelative(name)
    case Some(p) => p
    case None => []
  }

  function DeployEvidence(g: Graph, p: D.Plan, outcome: Outcome): Option<D.ProviderEvidence> {
    match outcome
    case Failed => None
    case Ready(files, total) =>
      Some(D.ProviderEvidence(
        g.name, g.render(ReleaseReady(PathOf(p.project), PathOf(p.commit), files, total)), true))
  }

  function PostCheck(g: Graph, released: bool): D.ProviderEvidence {
    D.ProviderEvidence(g.checker, g.render(if released then PointerValidated else PointerNotValidated), released)
  }

  function DeployReplies(g: Graph, d: Disk, p: D.Plan, fault: Fault, runner: Option<A.Evidence>): D.Replies {
    var (after, outcome) := DeployDisk(g, d, p, fault);
    var request := D.ActivationRequest(p);
    D.Replies(
      if g.fixed.Some? then Some(A.Preflight(g.fixed.value, g.screen, request)) else None,
      DeployEvidence(g, p, outcome),
      Some(PostCheck(g, Released(after, p.project, p.commit))),
      if g.fixed.Some? then Some(A.Activate(g.fixed.value, g.screen, request, runner)) else None)
  }

  function RollbackDisk(d: Disk, p: R.Plan, pointerFails: bool): (Disk, bool) {
    match (SafeRelative(p.project), SafeRelative(p.target))
    case (Some(project), Some(target)) => RolledBack(d, project, target, pointerFails)
    case _ => (d, false)
  }

  function RollbackEvidence(g: Graph, p: R.Plan, verified: bool): Option<D.ProviderEvidence> {
    if verified
    then Some(D.ProviderEvidence(g.name, g.render(RollbackReady(PathOf(p.project), PathOf(p.target))), true)) else None
  }

  function RollbackReplies(g: Graph, d: Disk, p: R.Plan, pointerFails: bool, runner: Option<A.Evidence>): R.Replies {
    var verified := RollbackDisk(d, p, pointerFails).1;
    var request := R.ActivationRequest(p);
    R.Replies(
      if g.fixed.Some? then Some(A.Preflight(g.fixed.value, g.screen, request)) else None,
      RollbackEvidence(g, p, verified),
      if g.fixed.Some? then Some(A.Activate(g.fixed.value, g.screen, request, runner)) else None)
  }

  // ----- one step and every run -----

  function NextDisk(g: Graph, s: Desk, e: Event): Disk {
    match e
    case RunDeploy(id, fault, runner, _) =>
      if id in s.deployments.plans && D.Deployable(g.screen, DeploySetup(g), s.backups, s.deployments.plans[id],
                                        DeployReplies(g, s.disk, s.deployments.plans[id], fault, runner))
      then DeployDisk(g, s.disk, s.deployments.plans[id], fault).0 else s.disk
    case RunRollback(id, pointerFails, runner) =>
      if id in s.rollbacks.plans && R.Revertible(g.screen, RollbackSetup(g), s.rollbacks.plans[id],
                                        RollbackReplies(g, s.disk, s.rollbacks.plans[id], pointerFails, runner))
      then RollbackDisk(s.disk, s.rollbacks.plans[id], pointerFails).0 else s.disk
    case _ => s.disk
  }

  function NextDeployments(g: Graph, s: Desk, e: Event, saves: bool): D.Book {
    match e
    case DeployEvent(d) =>
      if d.Execute? then s.deployments else D.Step(g.screen, DeploySetup(g), s.backups, s.deployments, d, saves)
    case RunDeploy(id, fault, runner, now) =>
      if id !in s.deployments.plans then s.deployments
      else D.Step(g.screen, DeploySetup(g), s.backups, s.deployments,
             D.Execute(id, DeployReplies(g, s.disk, s.deployments.plans[id], fault, runner), now), saves)
    case _ => s.deployments
  }

  function NextRollbacks(g: Graph, s: Desk, e: Event, saves: bool): R.Book {
    match e
    case RollbackEvent(r) =>
      if r.Execute? then s.rollbacks else R.Step(g.screen, RollbackSetup(g), s.rollbacks, r, saves)
    case RunRollback(id, pointerFails, runner) =>
      if id !in s.rollbacks.plans then s.rollbacks
      else R.Step(g.screen, RollbackSetup(g), s.rollbacks,
             R.Execute(id, RollbackReplies(g, s.disk, s.rollbacks.plans[id], pointerFails, runner)), saves)
    case _ => s.rollbacks
  }

  function Step(g: Graph, s: Desk, e: Event, saves: bool): Desk {
    Desk(NextDeployments(g, s, e, saves), NextRollbacks(g, s, e, saves),
      if e.BackupEvent? then B.Step(g.screen, g.backupProvider, s.backups, e.backup, e.at, saves) else s.backups,
      NextDisk(g, s, e))
  }

  const START := Desk(D.Book(map[], [], [], {}), R.Book(map[], [], [], {}), map[], map[[] := Dir])

  function Run(g: Graph, events: seq<(Event, bool)>): Desk {
    if events == [] then START
    else
      var (e, saves) := events[|events| - 1];
      Step(g, Run(g, events[..|events| - 1]), e, saves)
  }

  ghost predicate BooksSound(s: Desk) {
    D.Sound(s.deployments) && R.Sound(s.rollbacks)
  }

  ghost predicate DiskSound(s: Desk) {
    TreeShaped(s.disk) && PointersResolve(s.disk)
  }

  lemma StepBooks(g: Graph, s: Desk, e: Event, saves: bool)
    requires BooksSound(s)
    ensures BooksSound(Step(g, s, e, saves))
  {
    match e {
      case BackupEvent(_, _) =>
      case DeployEvent(d) => D.StepSound(g.screen, DeploySetup(g), s.backups, s.deployments, d, saves);
      case RunDeploy(id, fault, runner, now) =>
        if id in s.deployments.plans {
          var replies := DeployReplies(g, s.disk, s.deployments.plans[id], fault, runner);
          D.StepSound(g.screen, DeploySetup(g), s.backups, s.deployments, D.Execute(id, replies, now), saves);
        }
      case RollbackEvent(r) => R.StepSound(g.screen, RollbackSetup(g), s.rollbacks, r, saves);
      case RunRollback(id, pointerFails, runner) =>
        if id in s.rollbacks.plans {
          var replies := RollbackReplies(g, s.disk, s.rollbacks.plans[id], pointerFails, runner);
          R.StepSound(g.screen, RollbackSetup(g), s.rollbacks, R.Execute(id, replies), saves);
        }
    }
  }

  lemma DeployDiskSound(g: Graph, d: Disk, p: D.Plan, fault: Fault)
    requires Runs.Declared(g.artifacts) && TreeShaped(d) && PointersResolve(d)
    ensures TreeShaped(DeployDisk(g, d, p, fault).0) && PointersResolve(DeployDisk(g, d, p, fault).0)
  {
    if Admit(g.artifacts, p.project, p.commit).Some? {
      Runs.AdmittedRequest(g.artifacts, p.project, p.commit);
      DeployKeeps(d, Admit(g.artifacts, p.project, p.commit).value, g.safe, fault);
    }
  }

  lemma RollbackDiskSound(d: Disk, p: R.Plan, pointerFails: bool)
    requires TreeShaped(d) && PointersResolve(d)
    ensures TreeShaped(RollbackDisk(d, p, pointerFails).0) && PointersResolve(RollbackDisk(d, p, pointerFails).0)
  {
    if SafeRelative(p.project).Some? && SafeRelative(p.target).Some? {
      AcceptedNamesAreStable(p.target);
      RollbackKeeps(d, SafeRelative(p.project).value, SafeRelative(p.target).value, pointerFails);
    }
  }

  lemma StepDisk(g: Graph, s: Desk, e: Event)
    requires Runs.Declared(g.artifacts) && DiskSound(s)
    ensures TreeShaped(NextDisk(g, s, e)) && PointersResolve(NextDisk(g, s, e))
  {
    if NextDisk(g, s, e) != s.disk {
      match e {
        case RunDeploy(id, fault, _, _) => DeployDiskSound(g, s.disk, s.deployments.plans[id], fault);
        case RunRollback(id, pointerFails, _) => RollbackDiskSound(s.disk, s.rollbacks.plans[id], pointerFails);
      }
    }
  }

  /** Over every run of the joined workflow: the provider is called exactly once per lost save and
      once more per result stored from a call, only for plans that two people agreed on, every VERIFIED
      plan had its call, and every CURRENT on the disk resolves. */
  lemma {:induction false} EveryRunIsSound(g: Graph, events: seq<(Event, bool)>)
    requires Runs.Declared(g.artifacts)
    ensures BooksSound(Run(g, events)) && DiskSound(Run(g, events))
  {
    if events != [] {
      EveryRunIsSound(g, events[..|events| - 1]);
      var (e, saves) := events[|events| - 1];
      StepBooks(g, Run(g, events[..|events| - 1]), e, saves);
      StepDisk(g, Run(g, events[..|events| - 1]), e);
    }
  }

  /** A plan nothing was lost for has exactly one call when its stored result comes from a call, and
      none otherwise. */
  lemma CountWithoutLoss(d: D.Book, r: R.Book, id: string)
    requires D.Sound(d) && R.Sound(r) && d.lost == [] && r.lost == []
    ensures D.CallsOf(d.calls, id) == if id in d.done then 1 else 0
    ensures R.CallsOf(r.calls, id) == if id in r.done then 1 else 0
  {
    assert D.Counted(d, id) && R.Counted(r, id);
  }

  /** When every snapshot is saved, no plan reaches its provider twice: it was called exactly once for
      the plans whose stored result comes from a call, every verified plan among them. */
  lemma SavedRunsDeployAtMostOnce(g: Graph, events: seq<(Event, bool)>, id: string)
    requires Runs.Declared(g.artifacts) && forall i | 0 <= i < |events| :: events[i].1
    ensures var d := Run(g, events).deployments;
      && D.CallsOf(d.calls, id) == (if id in d.done then 1 else 0)
      && (id in d.plans && d.plans[id].state == D.VERIFIED ==> id in d.done)
    ensures var r := Run(g, events).rollbacks;
      && R.CallsOf(r.calls, id) == (if id in r.done then 1 else 0)
      && (id in r.plans && r.plans[id].state == R.VERIFIED ==> id in r.done)
  {
    EveryRunIsSound(g, events);
    NothingLost(g, events);
    CountWithoutLoss(Run(g, events).deployments, Run(g, events).rollbacks, id);
  }

  lemma {:induction false} NothingLost(g: Graph, events: seq<(Event, bool)>)
    requires forall i | 0 <= i < |events| :: events[i].1
    ensures Run(g, events).deployments.lost == [] && Run(g, events).rollbacks.lost == []
  {
    if events != [] {
      NothingLost(g, events[..|events| - 1]);
    }
  }

  /** The copy of an artifact holds all its files exactly when every directory that cannot be listed
      holds none. */
  ghost predicate Complete(g: Graph, r: Request) {
    && r.commit in g.artifacts
    && (CopiedFiles(Image(r.visits)) == Contents(Files(g.artifacts[r.commit].entries, [])) <==>
          TreeExposed(g.artifacts[r.commit]))
  }

  lemma AdmittedComplete(g: Graph, project: string, commit: string)
    requires Runs.Declared(g.artifacts) && Admit(g.artifacts, project, commit).Some?
    ensures Complete(g, Admit(g.artifacts, project, commit).value)
  {
    ImageComplete(g.artifacts[SafeRelative(commit).value]);
  }

  /** A confirmed deployment leaves CURRENT reading as its commit and the copy of the artifact in place. */
  lemma ConfirmedMeansReleased(g: Graph, d: Disk, p: D.Plan, fault: Fault, runner: Option<A.Evidence>)
    requires Runs.Declared(g.artifacts) && TreeShaped(d)
    requires D.Confirmed(g.screen, DeploySetup(g), p, DeployReplies(g, d, p, fault, runner))
    ensures Released(DeployDisk(g, d, p, fault).0, p.project, p.commit)
    ensures Admit(g.artifacts, p.project, p.commit).Some?
    ensures var r := Admit(g.artifacts, p.project, p.commit).value;
      Intact(DeployDisk(g, d, p, fault).0, r.project + r.commit, Image(r.visits)) && Complete(g, r)
  {
    var replies := DeployReplies(g, d, p, fault, runner);
    assert replies.deploy.Some? && replies.validation.value.verified;
    var r := Admit(g.artifacts, p.project, p.commit).value;
    Runs.AdmittedRequest(g.artifacts, p.project, p.commit);
    DeployPointer(d, r, g.safe, fault);
    AdmittedComplete(g, p.project, p.commit);
  }

  lemma ConfirmedMeansActivated(g: Graph, d: Disk, p: D.Plan, fault: Fault, runner: Option<A.Evidence>)
    requires g.fixed.Some? && D.Confirmed(g.screen, DeploySetup(g), p, DeployReplies(g, d, p, fault, runner))
    ensures p.project == A.DEFAULT_PROJECT && runner.Some?
    ensures A.RunnerEvidence(g.screen, runner.value, D.ActivationRequest(p))
  {
    var e := A.Activate(g.fixed.value, g.screen, D.ActivationRequest(p), runner);
    assert D.ActivationOf(DeployReplies(g, d, p, fault, runner)) == e;
    assert e.state == A.ACTIVATED;
  }

  lemma DeployableDisk(g: Graph, s: Desk, id: string, fault: Fault, runner: Option<A.Evidence>, now: int,
      replies: D.Replies)
    requires id in s.deployments.plans && replies == DeployReplies(g, s.disk, s.deployments.plans[id], fault, runner)
    requires D.Deployable(g.screen, DeploySetup(g), s.backups, s.deployments.plans[id], replies)
    ensures NextDisk(g, s, RunDeploy(id, fault, runner, now)) == DeployDisk(g, s.disk, s.deployments.plans[id], fault).0
  {
  }

  lemma VerifiedWasJudged(x: Screen, setup: D.Setup, backups: map<string, B.Record>, b: D.Book, id: string,
      r: D.Replies, now: int)
    requires id in b.plans && b.plans[id].id == id && b.plans[id].state != D.VERIFIED
    requires D.Step(x, setup, backups, b, D.Execute(id, r, now), true).plans[id].state == D.VERIFIED
    ensures D.Deployable(x, setup, backups, b.plans[id], r) && D.Confirmed(x, setup, b.plans[id], r)
  {
    var v := D.Judge(x, setup, backups, b.plans[id], r);
    assert v.Moves?;
  }

  /** A deployment that becomes VERIFIED was agreed by two people with a backup verified at that
      moment, and leaves its project's CURRENT reading as the deployed commit and exactly the copy of
      the artifact in place,
        complete when no directory of the artifact hides a file; with a fixed activation configured,
          the runner confirmed it for the
      control-center project. */
  lemma VerifiedMeansReleased(g: Graph, s: Desk, id: string, p: D.Plan, fault: Fault, runner: Option<A.Evidence>,
      now: int, disk: Disk)
    requires Runs.Declared(g.artifacts) && D.PlansSound(s.deployments) && TreeShaped(s.disk)
    requires id in s.deployments.plans && s.deployments.plans[id] == p && p.state != D.VERIFIED
    requires NextDeployments(g, s, RunDeploy(id, fault, runner, now), true).plans[id].state == D.VERIFIED
    requires disk == NextDisk(g, s, RunDeploy(id, fault, runner, now))
    ensures D.Agreed(p)
    ensures p.backupId.Some? && p.backupId.value in s.backups && B.IsVerified(s.backups[p.backupId.value])
    ensures Released(disk, p.project, p.commit) && Admit(g.artifacts, p.project, p.commit).Some?
    ensures var r := Admit(g.artifacts, p.project, p.commit).value;
      Intact(disk, r.project + r.commit, Image(r.visits)) && Complete(g, r)
    ensures g.fixed.Some? ==>
      p.project == A.DEFAULT_PROJECT && runner.Some? && A.RunnerEvidence(g.screen, runner.value, D.ActivationRequest(p))
  {
    assert D.SoundPlan(p, s.deployments.calls);
    var replies := DeployReplies(g, s.disk, p, fault, runner);
    VerifiedWasJudged(g.screen, DeploySetup(g), s.backups, s.deployments, id, replies, now);
    DeployableDisk(g, s, id, fault, runner, now, replies);
    ConfirmedMeansReleased(g, s.disk, p, fault, runner);
    if g.fixed.Some? {
      ConfirmedMeansActivated(g, s.disk, p, fault, runner);
    }
  }

  // ----- what a verified plan was prepared with -----

  predicate PastChecks(s: D.DeploymentState) {
    s == D.AWAITING_APPROVAL || s == D.APPROVED || s == D.VERIFIED
  }

  /** The k-th event is the saved preparation of the plan.  If the plan passed its checks, the caller gave
      all eight as true and named a backup that counted as verified at that moment. */
  ghost predicate PreparedAt(g: Graph, events: seq<(Event, bool)>, k: nat, p: D.Plan) {
    && k < |events| && events[k].1 && events[k].0.DeployEvent? && events[k].0.deploy.Prepare?
    && (var e := events[k].0.deploy;
        && e.preparation.id == p.id && e.preparation.project == p.project && e.preparation.commit == p.commit
        && e.preparation.backupId == p.backupId && e.user == p.requestedBy
        && (PastChecks(p.state) ==>
              && D.AllGiven(e.preparation.checks)
              && D.BackedUp(DeploySetup(g), Run(g, events[..k]).backups, e.preparation.backupId)))
  }

  /** The same plan later on; only a plan past its checks gets past them. */
  predicate MovedOn(p: D.Plan, n: D.Plan) {
    && n.id == p.id && n.project == p.project && n.commit == p.commit && n.backupId == p.backupId
    && n.requestedBy == p.requestedBy && (PastChecks(n.state) ==> PastChecks(p.state))
  }

  lemma ExecutionMovesOn(x: Screen, setup: D.Setup, backups: map<string, B.Record>, p: D.Plan, r: D.Replies, now: int)
    requires D.Judge(x, setup, backups, p, r).Moves?
    ensures MovedOn(p, D.Moved(p, D.Judge(x, setup, backups, p, r), now))
  {
  }

  lemma PreparationComesFrom(x: Screen, setup: D.Setup, backups: map<string, B.Record>, b: D.Book, user: string,
      p: D.Preparation, saves: bool, id: string)
    requires D.PlansSound(b) && id in D.Step(x, setup, backups, b, D.Prepare(user, p), saves).plans
    ensures var n := D.Step(x, setup, backups, b, D.Prepare(user, p), saves).plans[id];
      if id in b.plans then n == b.plans[id] else saves && D.Prepared(x, setup, backups, user, p) == Some(n)
  {
  }

  lemma ApprovalComesFrom(x: Screen, setup: D.Setup, backups: map<string, B.Record>, b: D.Book, approver: string,
      approved: string, saves: bool, id: string)
    requires D.PlansSound(b) && id in D.Step(x, setup, backups, b, D.Approve(approver, approved), saves).plans
    ensures id in b.plans
      && MovedOn(b.plans[id], D.Step(x, setup, backups, b, D.Approve(approver, approved), saves).plans[id])
  {
  }

  /** A plan after a step is an older one that moved on, or the one that was just prepared. */
  lemma PlansComeFrom(x: Screen, setup: D.Setup, backups: map<string, B.Record>, b: D.Book, e: D.Event, saves: bool,
      id: string)
    requires D.PlansSound(b) && id in D.Step(x, setup, backups, b, e, saves).plans
    ensures var n := D.Step(x, setup, backups, b, e, saves).plans[id];
      if id in b.plans then MovedOn(b.plans[id], n)
      else saves && e.Prepare? && D.Prepared(x, setup, backups, e.user, e.preparation) == Some(n)
  {
    match e {
      case Prepare(user, p) => PreparationComesFrom(x, setup, backups, b, user, p, saves, id);
      case Approve(approver, approved) => ApprovalComesFrom(x, setup, backups, b, approver, approved, saves, id);
      case Execute(executed, r, now) =>
        if executed in b.plans && D.Judge(x, setup, backups, b.plans[executed], r).Moves? {
          ExecutionMovesOn(x, setup, backups, b.plans[executed], r, now);
        }
    }
  }

  lemma DeploymentsComeFrom(g: Graph, s: Desk, e: Event, saves: bool, id: string)
    requires D.PlansSound(s.deployments) && id in NextDeployments(g, s, e, saves).plans
    ensures var b, n := s.deployments, NextDeployments(g, s, e, saves).plans[id];
      if id in b.plans then MovedOn(b.plans[id], n)
      else
        && saves && e.DeployEvent? && e.deploy.Prepare?
        && D.Prepared(g.screen, DeploySetup(g), s.backups, e.deploy.user, e.deploy.preparation) == Some(n)
  {
    match e {
      case DeployEvent(d) =>
        if !d.Execute? { PlansComeFrom(g.screen, DeploySetup(g), s.backups, s.deployments, d, saves, id); }
      case RunDeploy(other, fault, runner, now) =>
        if other in s.deployments.plans {
          var replies := DeployReplies(g, s.disk, s.deployments.plans[other], fault, runner);
          PlansComeFrom(g.screen, DeploySetup(g), s.backups, s.deployments, D.Execute(other, replies, now), saves, id);
        }
      case _ =>
    }
  }

  lemma PreparedAtStays(g: Graph, events: seq<(Event, bool)>, k: nat, p: D.Plan, n: D.Plan)
    requires events != [] && PreparedAt(g, events[..|events| - 1], k, p) && MovedOn(p, n)
    ensures PreparedAt(g, events, k, n)
  {
    assert events[..|events| - 1][..k] == events[..k];
  }

  lemma JustPrepared(g: Graph, events: seq<(Event, bool)>, p: D.Plan)
    requires events != []
    requires var (e, saves) := events[|events| - 1];
      && saves && e.DeployEvent? && e.deploy.Prepare?
      && D.Prepared(g.screen, DeploySetup(g), Run(g, events[..|events| - 1]).backups, e.deploy.user,
           e.deploy.preparation) == Some(p)
    ensures PreparedAt(g, events, |events| - 1, p)
  {
    var e := events[|events| - 1].0;
    D.PreparedExactly(g.screen, DeploySetup(g), Run(g, events[..|events| - 1]).backups, e.deploy.user,
      e.deploy.preparation);
  }

  lemma BooksStep(g: Graph, events: seq<(Event, bool)>)
    requires events != []
    ensures Run(g, events).deployments ==
      NextDeployments(g, Run(g, events[..|events| - 1]), events[|events| - 1].0, events[|events| - 1].1)
  {
  }

  lemma RunPlansSound(g: Graph, events: seq<(Event, bool)>)
    requires Runs.Declared(g.artifacts)
    ensures D.PlansSound(Run(g, events).deployments)
  {
    EveryRunIsSound(g, events);
  }

  /** Where a plan of the last step comes from. */
  lemma LastStepComesFrom(g: Graph, events: seq<(Event, bool)>, older: D.Book, b: D.Book, id: string)
    requires Runs.Declared(g.artifacts) && events != [] && older == Run(g, events[..|events| - 1]).deployments
    requires b == Run(g, events).deployments && id in b.plans
    ensures var (e, saves) := events[|events| - 1];
      if id in older.plans then MovedOn(older.plans[id], b.plans[id])
      else
        && saves && e.DeployEvent? && e.deploy.Prepare?
        && D.Prepared(g.screen, DeploySetup(g), Run(g, events[..|events| - 1]).backups, e.deploy.user,
             e.deploy.preparation) == Some(b.plans[id])
  {
    RunPlansSound(g, events[..|events| - 1]);
    BooksStep(g, events);
    DeploymentsComeFrom(g, Run(g, events[..|events| - 1]), events[|events| - 1].0, events[|events| - 1].1, id);
  }

  /** Over every run each plan goes back to its saved preparation. */
  lemma {:induction false} EveryPlanWasPrepared(g: Graph, events: seq<(Event, bool)>, b: D.Book, id: string)
    returns (k: nat)
    requires Runs.Declared(g.artifacts) && b == Run(g, events).deployments && id in b.plans
    ensures PreparedAt(g, events, k, b.plans[id])
    decreases |events|
  {
    StartHasNoPlans(g, events, b, id);
    var before := events[..|events| - 1];
    var older := Run(g, before).deployments;
    LastStepComesFrom(g, events, older, b, id);
    if id in older.plans {
      k := EveryPlanWasPrepared(g, before, older, id);
      PreparedAtStays(g, events, k, older.plans[id], b.plans[id]);
    } else {
      k := |events| - 1;
      JustPrepared(g, events, b.plans[id]);
    }
  }

  lemma StartHasNoPlans(g: Graph, events: seq<(Event, bool)>, b: D.Book, id: string)
    requires b == Run(g, events).deployments && id in b.plans
    ensures events != []
  {
  }

  /** Over every run a VERIFIED plan was prepared with all eight checks given as true and with a backup
      that counted as verified then, and somebody else approved it. */
  lemma EveryVerifiedPlanPassedItsChecks(g: Graph, events: seq<(Event, bool)>, id: string) returns (k: nat)
    requires Runs.Declared(g.artifacts) && id in Run(g, events).deployments.plans
    requires Run(g, events).deployments.plans[id].state == D.VERIFIED
    ensures k < |events| && events[k].1 && events[k].0.DeployEvent? && events[k].0.deploy.Prepare?
    ensures var p, e := Run(g, events).deployments.plans[id], events[k].0.deploy;
      && e.preparation.id == id && e.preparation.project == p.project && e.preparation.commit == p.commit
      && e.user == p.requestedBy && p.approvedBy.Some? && p.approvedBy.value != e.user
      && (forall n | n in {"git", "branch", "tests", "build", "dependencies", "disk", "backup",
           "backup_verification"} ::
            n in e.preparation.checks && e.preparation.checks[n])
      && e.preparation.backupId.Some?
      && (g.backups ==>
            && e.preparation.backupId.value in Run(g, events[..k]).backups
            && B.IsVerified(Run(g, events[..k]).backups[e.preparation.backupId.value]))
  {
    k := EveryPlanWasPrepared(g, events, Run(g, events).deployments, id);
    EveryRunIsSound(g, events);
    assert D.SoundPlan(Run(g, events).deployments.plans[id], Run(g, events).deployments.calls);
  }

  // ----- the fixed activation on a plan -----

  /** With the fixed activation a deployment passes the preflight exactly when the service is enabled and
      has a runner, the project is the control center, somebody else approved it and its texts are safe;
      the reference is the linked approval, or the plan itself. */
  lemma PreflightOfPlanExactly(g: Graph, p: D.Plan)
    requires g.fixed.Some?
    ensures A.Preflight(g.fixed.value, g.screen, D.ActivationRequest(p)).state == A.READY <==>
      && g.fixed.value.enabled && g.fixed.value.runner && p.project == "control-center"
      && A.SafeText(g.screen, p.commit) && A.SafeText(g.screen, p.requestedBy)
      && p.approvedBy.Some? && p.approvedBy.value != p.requestedBy && A.SafeText(g.screen, p.approvedBy.value)
      && A.SafeText(g.screen, if p.approvalId.Some? && p.approvalId.value != "" then p.approvalId.value else p.id)
  {
    A.ReadyExactly(g.fixed.value, g.screen, D.ActivationRequest(p));
    ShortTexts(g.screen);
  }

  lemma PreflightOfRollbackExactly(g: Graph, p: R.Plan)
    requires g.fixed.Some?
    ensures A.Preflight(g.fixed.value, g.screen, R.ActivationRequest(p)).state == A.READY <==>
      && g.fixed.value.enabled && g.fixed.value.runner && p.project == "control-center"
      && A.SafeText(g.screen, p.target) && A.SafeText(g.screen, p.requestedBy)
      && p.approvedBy.Some? && p.approvedBy.value != p.requestedBy && A.SafeText(g.screen, p.approvedBy.value)
      && A.SafeText(g.screen, p.id)
  {
    A.ReadyExactly(g.fixed.value, g.screen, R.ActivationRequest(p));
    ShortTexts(g.screen);
  }

  lemma DeployIsSafe(x: Screen)
    ensures A.SafeText(x, "deploy")
  {
    assert x.Clean("deploy");
    assert !Space("deploy"[0]);
  }

  lemma RollbackIsSafe(x: Screen)
    ensures A.SafeText(x, "rollback")
  {
    assert x.Clean("rollback");
    assert !Space("rollback"[0]);
  }

  lemma ControlCenterIsSafe(x: Screen)
    ensures A.SafeText(x, "control-center")
  {
    assert x.Clean("control-center");
    assert !Space("control-center"[0]);
  }

  lemma ShortTexts(x: Screen)
    ensures A.SafeText(x, "control-center") && A.SafeText(x, "deploy") && A.SafeText(x, "rollback")
    ensures !A.SafeText(x, "")
  {
    DeployIsSafe(x);
    RollbackIsSafe(x);
    ControlCenterIsSafe(x);
  }

  // ----- exactly when the joined workflow verifies -----

  /** Text of the provider that the managers accept. */
  predicate Presentable(x: Screen, t: string) {
    !Blank(t) && |t| <= 512 && x.Clean(t)
  }

  /** The runner reports the unit and the operation of the request as activated, in text that both the
      service and the managers accept. */
  predicate RunnerConfirms(x: Screen, runner: Option<A.Evidence>, operation: string) {
    && runner.Some? && runner.value.provider == A.Own(A.FixedServiceRunner)
    && runner.value.unit == A.Own(A.ControlCenterUnit) && runner.value.operation == operation
    && runner.value.state == A.ACTIVATED && runner.value.verified
    && (runner.value.result.Foreign? ==>
         A.SafeText(x, runner.value.result.text) && x.Safe(runner.value.result.text, 512))
  }

  /** With the fixed service, the preflight passes exactly when it is ready, and the activation confirms
      exactly when it is ready and the runner confirms. */
  lemma FixedServiceExactly(f: A.Fixed, x: Screen, r: A.Request, runner: Option<A.Evidence>)
    requires r.unit == A.DEFAULT_UNIT && (r.operation == "deploy" || r.operation == "rollback")
    ensures var e := A.Preflight(f, x, r);
      A.ValidActivation(x, e, r) && (e.state == A.READY && e.verified <==> e.state == A.READY)
    ensures var e := A.Activate(f, x, r, runner);
      A.ValidActivation(x, e, r) && e.state == A.ACTIVATED && e.verified <==>
        A.Preflight(f, x, r).state == A.READY && RunnerConfirms(x, runner, r.operation)
  {
    A.OperationsAreSafe(x);
    A.ActivatedExactly(f, x, r, runner);
  }

  lemma DeployableInGraph(g: Graph, d: Disk, backups: map<string, B.Record>, p: D.Plan, fault: Fault,
      runner: Option<A.Evidence>)
    ensures D.Deployable(g.screen, DeploySetup(g), backups, p, DeployReplies(g, d, p, fault, runner)) <==>
      && p.state == D.APPROVED && g.provider && g.backups && g.backupProvider && g.validator
      && D.BackedUp(DeploySetup(g), backups, p.backupId)
      && (g.fixed.Some? ==> A.Preflight(g.fixed.value, g.screen, D.ActivationRequest(p)).state == A.READY)
  {
    if g.fixed.Some? {
      FixedServiceExactly(g.fixed.value, g.screen, D.ActivationRequest(p), runner);
    }
  }

  /** The deploy succeeds on the disk, and its texts and those of the post-check are accepted. */
  ghost predicate DeploySucceeds(g: Graph, d: Disk, p: D.Plan, fault: Fault) {
    && Admit(g.artifacts, p.project, p.commit).Some?
    && (var r := Admit(g.artifacts, p.project, p.commit).value;
        && Deployed(d, r, g.safe, fault).1.Ready?
        && Presentable(g.screen,
             g.render(ReleaseReady(r.project, r.commit, FileCount(r.visits), ByteCount(r.visits)))))
    && Presentable(g.screen, g.name) && Presentable(g.screen, g.checker)
    && Presentable(g.screen, g.render(PointerValidated))
  }

  lemma ConfirmedInGraph(g: Graph, d: Disk, p: D.Plan, fault: Fault, runner: Option<A.Evidence>)
    requires Runs.Declared(g.artifacts) && TreeShaped(d)
    requires g.fixed.Some? ==> A.Preflight(g.fixed.value, g.screen, D.ActivationRequest(p)).state == A.READY
    ensures D.Confirmed(g.screen, DeploySetup(g), p, DeployReplies(g, d, p, fault, runner)) <==>
      DeploySucceeds(g, d, p, fault) && (g.fixed.Some? ==> RunnerConfirms(g.screen, runner, "deploy"))
  {
    if g.fixed.Some? {
      FixedServiceExactly(g.fixed.value, g.screen, D.ActivationRequest(p), runner);
    }
    EvidenceOfDeploy(g, d, p, fault);
  }

  lemma EvidenceOfDeploy(g: Graph, d: Disk, p: D.Plan, fault: Fault)
    requires Runs.Declared(g.artifacts) && TreeShaped(d)
    ensures var (after, outcome) := DeployDisk(g, d, p, fault);
      D.ValidEvidence(g.screen, DeployEvidence(g, p, outcome))
      && D.ValidEvidence(g.screen, Some(PostCheck(g, Released(after, p.project, p.commit)))) <==>
        DeploySucceeds(g, d, p, fault)
  {
    var (after, outcome) := DeployDisk(g, d, p, fault);
    D.EvidenceExactly(g.screen, DeployEvidence(g, p, outcome));
    D.EvidenceExactly(g.screen, Some(PostCheck(g, Released(after, p.project, p.commit))));
    if outcome.Ready? {
      ReadyIsReleased(g, d, p, fault);
    }
  }

  /** A deploy that reports ready passes its own post-check. */
  lemma ReadyIsReleased(g: Graph, d: Disk, p: D.Plan, fault: Fault)
    requires Runs.Declared(g.artifacts) && TreeShaped(d) && DeployDisk(g, d, p, fault).1.Ready?
    ensures Released(DeployDisk(g, d, p, fault).0, p.project, p.commit)
    ensures Admit(g.artifacts, p.project, p.commit).Some?
    ensures var r := Admit(g.artifacts, p.project, p.commit).value;
      && DeployDisk(g, d, p, fault).1 == Ready(FileCount(r.visits), ByteCount(r.visits))
      && PathOf(p.project) == r.project && PathOf(p.commit) == r.commit
  {
    var r := Admit(g.artifacts, p.project, p.commit).value;
    Runs.AdmittedRequest(g.artifacts, p.project, p.commit);
    DeployPointer(d, r, g.safe, fault);
    ImageTreeShaped(r.visits);
    var at := r.project + r.commit;
    assert at <= at && at[|at|..] == [];
  }

  /** An approved plan that is executed and saved becomes VERIFIED exactly when every collaborator is
      configured, its backup counts as verified, the deploy succeeds on the disk with acceptable texts and,
      with the fixed activation, the preflight is ready and the runner confirms. */
  lemma DeploymentVerifiesExactly(g: Graph, s: Desk, id: string, p: D.Plan, fault: Fault, runner: Option<A.Evidence>,
      now: int)
    requires Runs.Declared(g.artifacts) && TreeShaped(s.disk)
    requires id in s.deployments.plans && s.deployments.plans[id] == p && p.id == id && p.state == D.APPROVED
    ensures var n := Step(g, s, RunDeploy(id, fault, runner, now), true);
      && id in n.deployments.plans
      && (n.deployments.plans[id].state == D.VERIFIED <==>
            && g.provider && g.backups && g.backupProvider && g.validator
            && D.BackedUp(DeploySetup(g), s.backups, p.backupId) && DeploySucceeds(g, s.disk, p, fault)
            && (g.fixed.Some? ==>
                  && A.Preflight(g.fixed.value, g.screen, D.ActivationRequest(p)).state == A.READY
                  && RunnerConfirms(g.screen, runner, "deploy")))
  {
    DeployableInGraph(g, s.disk, s.backups, p, fault, runner);
    if g.fixed.Some? ==> A.Preflight(g.fixed.value, g.screen, D.ActivationRequest(p)).state == A.READY {
      ConfirmedInGraph(g, s.disk, p, fault, runner);
    }
    ExecutedState(g, s, id, p, DeployReplies(g, s.disk, p, fault, runner), now);
  }

  lemma ExecutedState(g: Graph, s: Desk, id: string, p: D.Plan, replies: D.Replies, now: int)
    requires id in s.deployments.plans && s.deployments.plans[id] == p && p.id == id && p.state == D.APPROVED
    ensures var n := D.Step(g.screen, DeploySetup(g), s.backups, s.deployments, D.Execute(id, replies, now), true);
      && id in n.plans
      && (n.plans[id].state == D.VERIFIED <==>
            D.Deployable(g.screen, DeploySetup(g), s.backups, p, replies)
            && D.Confirmed(g.screen, DeploySetup(g), p, replies))
  {
  }

  /** The rollback succeeds on the disk, and its texts are accepted. */
  predicate RollbackSucceeds(g: Graph, d: Disk, p: R.Plan, fails: bool) {
    && SafeRelative(p.project).Some? && SafeRelative(p.target).Some?
    && (var project, target := SafeRelative(p.project).value, SafeRelative(p.target).value;
        && RolledBack(d, project, target, fails).1
        && Presentable(g.screen, g.name) && Presentable(g.screen, g.render(RollbackReady(project, target))))
  }

  /** An approved rollback that is executed and saved becomes VERIFIED exactly when the provider is enabled,
      the rollback succeeds on the disk with acceptable texts and, with the fixed activation, the preflight
      is ready and the runner confirms. */
  lemma RollbackVerifiesExactly(g: Graph, s: Desk, id: string, p: R.Plan, fails: bool, runner: Option<A.Evidence>)
    requires id in s.rollbacks.plans && s.rollbacks.plans[id] == p && p.id == id && p.state == R.APPROVED
    ensures var n := Step(g, s, RunRollback(id, fails, runner), true);
      && id in n.rollbacks.plans
      && (n.rollbacks.plans[id].state == R.VERIFIED <==>
            && g.provider && RollbackSucceeds(g, s.disk, p, fails)
            && (g.fixed.Some? ==>
                  && A.Preflight(g.fixed.value, g.screen, R.ActivationRequest(p)).state == A.READY
                  && RunnerConfirms(g.screen, runner, "rollback")))
  {
    var replies := RollbackReplies(g, s.disk, p, fails, runner);
    R.ExecutionExactly(g.screen, RollbackSetup(g), s.rollbacks, id, replies);
    RollbackInGraph(g, s.disk, p, fails, runner);
  }

  lemma RollbackInGraph(g: Graph, d: Disk, p: R.Plan, fails: bool, runner: Option<A.Evidence>)
    requires p.state == R.APPROVED
    ensures var replies := RollbackReplies(g, d, p, fails, runner);
      R.Revertible(g.screen, RollbackSetup(g), p, replies) && R.Confirmed(g.screen, RollbackSetup(g), p, replies) <==>
        && g.provider && RollbackSucceeds(g, d, p, fails)
        && (g.fixed.Some? ==>
              && A.Preflight(g.fixed.value, g.screen, R.ActivationRequest(p)).state == A.READY
              && RunnerConfirms(g.screen, runner, "rollback"))
  {
    var replies := RollbackReplies(g, d, p, fails, runner);
    EvidenceOfRollback(g, d, p, fails);
    if g.fixed.Some? {
      FixedServiceExactly(g.fixed.value, g.screen, R.ActivationRequest(p), runner);
      assert R.PreflightOf(replies) == A.Preflight(g.fixed.value, g.screen, R.ActivationRequest(p));
      assert R.ActivationOf(replies) == A.Activate(g.fixed.value, g.screen, R.ActivationRequest(p), runner);
    }
  }

  lemma ReportOfRollback(g: Graph, p: R.Plan, verified: bool)
    ensures D.ValidEvidence(g.screen, RollbackEvidence(g, p, verified)) <==>
      verified && Presentable(g.screen, g.name)
        && Presentable(g.screen, g.render(RollbackReady(PathOf(p.project), PathOf(p.target))))
  {
    D.EvidenceExactly(g.screen, RollbackEvidence(g, p, verified));
  }

  lemma DiskOfRollback(d: Disk, p: R.Plan, fails: bool)
    ensures RollbackDisk(d, p, fails).1 <==>
      && SafeRelative(p.project).Some? && SafeRelative(p.target).Some?
      && RolledBack(d, SafeRelative(p.project).value, SafeRelative(p.target).value, fails).1
  {
  }

  lemma EvidenceOfRollback(g: Graph, d: Disk, p: R.Plan, fails: bool)
    ensures D.ValidEvidence(g.screen, RollbackEvidence(g, p, RollbackDisk(d, p, fails).1)) <==>
      RollbackSucceeds(g, d, p, fails)
  {
    ReportOfRollback(g, p, RollbackDisk(d, p, fails).1);
    DiskOfRollback(d, p, fails);
  }

  // ----- verified releases over every later run -----

  /** The operation on the release root that an event amounts to, if the provider is called. */
  function OpsOf(g: Graph, s: Desk, e: Event): seq<Runs.Op> {
    match e
    case RunDeploy(id, fault, runner, _) =>
      if id in s.deployments.plans && D.Deployable(g.screen, DeploySetup(g), s.backups, s.deployments.plans[id],
                                        DeployReplies(g, s.disk, s.deployments.plans[id], fault, runner))
      then [Runs.DeployOp(s.deployments.plans[id].project, s.deployments.plans[id].commit, fault)] else []
    case RunRollback(id, pointerFails, runner) =>
      if id in s.rollbacks.plans && R.Revertible(g.screen, RollbackSetup(g), s.rollbacks.plans[id],
                                        RollbackReplies(g, s.disk, s.rollbacks.plans[id], pointerFails, runner))
      then [Runs.RollbackOp(s.rollbacks.plans[id].project, s.rollbacks.plans[id].target, pointerFails)] else []
    case _ => []
  }

  /** The sequence of deploys and rollbacks that a run of the workflow performs on the release root. */
  function History(g: Graph, events: seq<(Event, bool)>): seq<Runs.Op> {
    if events == [] then []
    else History(g, events[..|events| - 1]) + OpsOf(g, Run(g, events[..|events| - 1]), events[|events| - 1].0)
  }

  /** The release root with the releases that a run of the workflow published. */
  function WorldOf(g: Graph, events: seq<(Event, bool)>): Runs.World {
    Runs.Run(g.artifacts, g.safe, History(g, events))
  }

  lemma NextDiskIsOps(g: Graph, s: Desk, e: Event, w: Runs.World)
    requires w.disk == s.disk
    ensures var ops := OpsOf(g, s, e);
      |ops| <= 1 && NextDisk(g, s, e) == if ops == [] then w.disk else Runs.Apply(w, g.artifacts, g.safe, ops[0]).disk
  {
  }

  lemma WorldStep(g: Graph, events: seq<(Event, bool)>)
    requires events != []
    ensures var before := events[..|events| - 1]; var ops := OpsOf(g, Run(g, before), events[|events| - 1].0);
      WorldOf(g, events) ==
        if |ops| == 1 then Runs.Apply(WorldOf(g, before), g.artifacts, g.safe, ops[0]) else WorldOf(g, before)
  {
    var before := events[..|events| - 1];
    var ops := OpsOf(g, Run(g, before), events[|events| - 1].0);
    if |ops| == 1 {
      assert (History(g, before) + ops)[..|History(g, before)|] == History(g, before);
    } else {
      assert History(g, before) + ops == History(g, before);
    }
  }

  /** The disk of the workflow is what its deploys and rollbacks make of an empty release root. */
  lemma {:induction false} DiskIsHistory(g: Graph, events: seq<(Event, bool)>)
    ensures Run(g, events).disk == WorldOf(g, events).disk
  {
    if events != [] {
      var before := events[..|events| - 1];
      DiskIsHistory(g, before);
      WorldStep(g, events);
      NextDiskIsOps(g, Run(g, before), events[|events| - 1].0, WorldOf(g, before));
    }
  }

  ghost predicate WasPublished(w: Runs.World, r: Request) {
    exists i :: 0 <= i < |w.releases| && w.releases[i] == Runs.Release(r.project + r.commit, Image(r.visits))
  }

  lemma PublishedStays(w: Runs.World, n: Runs.World, r: Request)
    requires WasPublished(w, r) && w.releases <= n.releases
    ensures WasPublished(n, r)
  {
    var i :| 0 <= i < |w.releases| && w.releases[i] == Runs.Release(r.project + r.commit, Image(r.visits));
    assert n.releases[i] == w.releases[i];
  }

  lemma OnlyExecutionVerifies(x: Screen, setup: D.Setup, backups: map<string, B.Record>, b: D.Book, e: D.Event,
      saves: bool, id: string)
    requires D.PlansSound(b) && id in D.Step(x, setup, backups, b, e, saves).plans
    requires D.Step(x, setup, backups, b, e, saves).plans[id].state == D.VERIFIED
    requires id in b.plans ==> b.plans[id].state != D.VERIFIED
    ensures saves && e.Execute? && e.executed == id && id in b.plans
    ensures var n := D.Step(x, setup, backups, b, e, saves).plans[id];
      b.plans[id].project == n.project && b.plans[id].commit == n.commit
  {
  }

  /** A plan becomes VERIFIED only by its own saved execution. */
  lemma BecomesVerified(g: Graph, s: Desk, e: Event, saves: bool, id: string)
    requires D.PlansSound(s.deployments) && id in NextDeployments(g, s, e, saves).plans
    requires NextDeployments(g, s, e, saves).plans[id].state == D.VERIFIED
    requires id in s.deployments.plans ==> s.deployments.plans[id].state != D.VERIFIED
    ensures saves && e.RunDeploy? && e.id == id && id in s.deployments.plans
    ensures var p, n := s.deployments.plans[id], NextDeployments(g, s, e, saves).plans[id];
      p.project == n.project && p.commit == n.commit
  {
    if e.DeployEvent? {
      OnlyExecutionVerifies(g.screen, DeploySetup(g), s.backups, s.deployments, e.deploy, saves, id);
    } else if e.RunDeploy? && e.id in s.deployments.plans {
      var replies := DeployReplies(g, s.disk, s.deployments.plans[e.id], e.fault, e.runner);
      OnlyExecutionVerifies(g.screen, DeploySetup(g), s.backups, s.deployments, D.Execute(e.id, replies, e.now), saves,
        id);
    }
  }

  /** The execution that verifies a plan publishes its release. */
  lemma VerifiedPublishes(g: Graph, s: Desk, e: Event, id: string)
    requires e.RunDeploy? && e.id == id && id in s.deployments.plans && D.PlansSound(s.deployments)
    requires s.deployments.plans[id].state != D.VERIFIED
    requires NextDeployments(g, s, e, true).plans[id].state == D.VERIFIED
    ensures var p := s.deployments.plans[id]; var admitted := Admit(g.artifacts, p.project, p.commit);
      && OpsOf(g, s, e) == [Runs.DeployOp(p.project, p.commit, e.fault)]
      && admitted.Some? && Publishes(s.disk, admitted.value, g.safe, e.fault)
  {
    var p := s.deployments.plans[id];
    var replies := DeployReplies(g, s.disk, p, e.fault, e.runner);
    VerifiedWasJudged(g.screen, DeploySetup(g), s.backups, s.deployments, id, replies, e.now);
    assert replies.deploy.Some?;
  }

  lemma AppliedPublishes(g: Graph, w: Runs.World, project: string, commit: string, fault: Fault)
    requires var admitted := Admit(g.artifacts, project, commit);
      admitted.Some? && Publishes(w.disk, admitted.value, g.safe, fault)
    ensures WasPublished(
      Runs.Apply(w, g.artifacts, g.safe, Runs.DeployOp(project, commit, fault)),
        Admit(g.artifacts, project, commit).value)
  {
    var r, n := Admit(g.artifacts, project, commit).value,
      Runs.Apply(w, g.artifacts, g.safe, Runs.DeployOp(project, commit, fault));
    assert n.releases[|w.releases|] == Runs.Release(r.project + r.commit, Image(r.visits));
  }

  lemma ReleasesGrow(g: Graph, w: Runs.World, op: Runs.Op)
    ensures w.releases <= Runs.Apply(w, g.artifacts, g.safe, op).releases
  {
  }

  /** Over every run each VERIFIED plan's artifact was published in its place. */
  lemma {:induction false} EveryVerifiedWasPublished(g: Graph, events: seq<(Event, bool)>, id: string)
    requires Runs.Declared(g.artifacts) && id in Run(g, events).deployments.plans
    requires Run(g, events).deployments.plans[id].state == D.VERIFIED
    ensures var p := Run(g, events).deployments.plans[id]; var admitted := Admit(g.artifacts, p.project, p.commit);
      admitted.Some? && WasPublished(WorldOf(g, events), admitted.value)
  {
    var before := events[..|events| - 1];
    var (e, saves) := events[|events| - 1];
    var s, w := Run(g, before), WorldOf(g, before);
    EveryRunIsSound(g, before);
    WorldStep(g, events);
    if id in s.deployments.plans && s.deployments.plans[id].state == D.VERIFIED {
      EveryVerifiedWasPublished(g, before, id);
      VerifiedStays(g, s, e, saves, id);
      var p, ops := s.deployments.plans[id], OpsOf(g, s, e);
      if |ops| == 1 { ReleasesGrow(g, w, ops[0]); }
      PublishedStays(w, WorldOf(g, events), Admit(g.artifacts, p.project, p.commit).value);
    } else {
      BecomesVerified(g, s, e, saves, id);
      VerifiedPublishes(g, s, e, id);
      DiskIsHistory(g, before);
      var p := s.deployments.plans[id];
      AppliedPublishes(g, w, p.project, p.commit, e.fault);
    }
  }

  lemma VerifiedStays(g: Graph, s: Desk, e: Event, saves: bool, id: string)
    requires D.Sound(s.deployments) && id in s.deployments.plans && s.deployments.plans[id].state == D.VERIFIED
    ensures var n := NextDeployments(g, s, e, saves); id in n.plans && n.plans[id] == s.deployments.plans[id]
  {
    match e {
      case DeployEvent(d) =>
        D.TerminalPlansStay(g.screen, DeploySetup(g), s.backups, s.deployments, d, saves, id);
      case RunDeploy(other, fault, runner, now) =>
        if other in s.deployments.plans {
          var replies := DeployReplies(g, s.disk, s.deployments.plans[other], fault, runner);
          D.TerminalPlansStay(g.screen, DeploySetup(g), s.backups, s.deployments, D.Execute(other, replies, now), saves,
            id);
        }
      case _ =>
    }
  }

  lemma {:induction false} VerifiedStaysThroughout(g: Graph, events: seq<(Event, bool)>, k: nat, id: string)
    requires Runs.Declared(g.artifacts) && k <= |events| && id in Run(g, events[..k]).deployments.plans
    requires Run(g, events[..k]).deployments.plans[id].state == D.VERIFIED
    ensures id in Run(g, events).deployments.plans
    ensures Run(g, events).deployments.plans[id] == Run(g, events[..k]).deployments.plans[id]
    decreases |events|
  {
    if k == |events| {
      assert events[..k] == events;
    } else {
      var before := events[..|events| - 1];
      assert before[..k] == events[..k];
      VerifiedStaysThroughout(g, before, k, id);
      EveryRunIsSound(g, before);
      VerifiedStays(g, Run(g, before), events[|events| - 1].0, events[|events| - 1].1, id);
    }
  }

  /** New plans have single-component names. */
  predicate FlatEvent(e: Event) {
    && (e.DeployEvent? && e.deploy.Prepare? ==>
          Runs.FlatName(e.deploy.preparation.project) && Runs.FlatName(e.deploy.preparation.commit))
    && (e.RollbackEvent? && e.rollback.Prepare? ==>
          Runs.FlatName(e.rollback.project) && Runs.FlatName(e.rollback.target))
  }

  ghost predicate FlatDeployments(b: D.Book) {
    forall id | id in b.plans :: Runs.FlatName(b.plans[id].project) && Runs.FlatName(b.plans[id].commit)
  }

  ghost predicate FlatRollbacks(b: R.Book) {
    forall id | id in b.plans :: Runs.FlatName(b.plans[id].project) && Runs.FlatName(b.plans[id].target)
  }

  ghost predicate FlatPlans(s: Desk) {
    FlatDeployments(s.deployments) && FlatRollbacks(s.rollbacks)
  }

  lemma FlatDeploymentStep(x: Screen, setup: D.Setup, backups: map<string, B.Record>, b: D.Book, e: D.Event,
      saves: bool)
    requires FlatDeployments(b)
    requires e.Prepare? ==> Runs.FlatName(e.preparation.project) && Runs.FlatName(e.preparation.commit)
    ensures FlatDeployments(D.Step(x, setup, backups, b, e, saves))
  {
  }

  lemma FlatRollbackStep(x: Screen, setup: R.Setup, b: R.Book, e: R.Event, saves: bool)
    requires FlatRollbacks(b) && (e.Prepare? ==> Runs.FlatName(e.project) && Runs.FlatName(e.target))
    ensures FlatRollbacks(R.Step(x, setup, b, e, saves))
  {
  }

  lemma {:induction false} FlatHistory(g: Graph, events: seq<(Event, bool)>)
    requires forall i | 0 <= i < |events| :: FlatEvent(events[i].0)
    ensures FlatPlans(Run(g, events)) && forall op | op in History(g, events) :: Runs.Flat(op)
  {
    if events != [] {
      var before := events[..|events| - 1];
      FlatHistory(g, before);
      FlatStep(g, Run(g, before), events[|events| - 1].0, events[|events| - 1].1);
      FlatOps(g, Run(g, before), events[|events| - 1].0);
    }
  }

  lemma FlatStep(g: Graph, s: Desk, e: Event, saves: bool)
    requires FlatPlans(s) && FlatEvent(e)
    ensures FlatPlans(Step(g, s, e, saves))
  {
    match e {
      case BackupEvent(_, _) =>
      case DeployEvent(d) => FlatDeploymentStep(g.screen, DeploySetup(g), s.backups, s.deployments, d, saves);
      case RunDeploy(id, fault, runner, now) =>
        if id in s.deployments.plans {
          var replies := DeployReplies(g, s.disk, s.deployments.plans[id], fault, runner);
          FlatDeploymentStep(g.screen, DeploySetup(g), s.backups, s.deployments, D.Execute(id, replies, now), saves);
        }
      case RollbackEvent(r) => FlatRollbackStep(g.screen, RollbackSetup(g), s.rollbacks, r, saves);
      case RunRollback(id, pointerFails, runner) =>
        if id in s.rollbacks.plans {
          var replies := RollbackReplies(g, s.disk, s.rollbacks.plans[id], pointerFails, runner);
          FlatRollbackStep(g.screen, RollbackSetup(g), s.rollbacks, R.Execute(id, replies), saves);
        }
    }
  }

  lemma FlatOps(g: Graph, s: Desk, e: Event)
    requires FlatPlans(s)
    ensures forall op | op in OpsOf(g, s, e) :: Runs.Flat(op)
  {
  }

  /** With single-component names the release of a deployment that was VERIFIED at some moment still
      holds exactly its copied artifact after every longer run, whatever was deployed, rolled back,
      failed or lost since. */
  lemma EveryFlatRunKeepsVerifiedReleases(g: Graph, events: seq<(Event, bool)>, k: nat, id: string)
    requires Runs.Declared(g.artifacts) && forall i | 0 <= i < |events| :: FlatEvent(events[i].0)
    requires k <= |events| && id in Run(g, events[..k]).deployments.plans
    requires Run(g, events[..k]).deployments.plans[id].state == D.VERIFIED
    ensures var p := Run(g, events[..k]).deployments.plans[id]; var admitted := Admit(g.artifacts, p.project, p.commit);
      && id in Run(g, events).deployments.plans && Run(g, events).deployments.plans[id] == p && admitted.Some?
      && Intact(Run(g, events).disk, admitted.value.project + admitted.value.commit, Image(admitted.value.visits))
  {
    VerifiedStaysThroughout(g, events, k, id);
    EveryVerifiedWasPublished(g, events, id);
    FlatHistory(g, events);
    Runs.EveryFlatRunKeepsReleases(g.artifacts, g.safe, History(g, events));
    DiskIsHistory(g, events);
    var p := Run(g, events).deployments.plans[id];
    var r, w := Admit(g.artifacts, p.project, p.commit).value, WorldOf(g, events);
    var i :| 0 <= i < |w.releases| && w.releases[i] == Runs.Release(r.project + r.commit, Image(r.visits));
  }

  // ----- verified rollbacks -----

  lemma RollbackWasJudged(x: Screen, setup: R.Setup, b: R.Book, id: string, r: R.Replies)
    requires id in b.plans && b.plans[id].id == id && b.plans[id].state != R.VERIFIED
    requires R.Step(x, setup, b, R.Execute(id, r), true).plans[id].state == R.VERIFIED
    ensures R.Revertible(x, setup, b.plans[id], r) && R.Confirmed(x, setup, b.plans[id], r)
  {
    var v := R.Judge(x, setup, b.plans[id], r);
    assert v.Moves?;
  }

  lemma RevertibleDisk(g: Graph, s: Desk, id: string, fails: bool, runner: Option<A.Evidence>, replies: R.Replies)
    requires id in s.rollbacks.plans && replies == RollbackReplies(g, s.disk, s.rollbacks.plans[id], fails, runner)
    requires R.Revertible(g.screen, RollbackSetup(g), s.rollbacks.plans[id], replies)
    ensures NextDisk(g, s, RunRollback(id, fails, runner)) == RollbackDisk(s.disk, s.rollbacks.plans[id], fails).0
  {
  }

  /** A rollback that the provider confirms switched CURRENT to an existing directory, and nothing else. */
  lemma ConfirmedMeansSwitched(d: Disk, p: R.Plan, fails: bool)
    requires RollbackDisk(d, p, fails).1
    ensures SafeRelative(p.project).Some? && SafeRelative(p.target).Some?
    ensures var project, target := SafeRelative(p.project).value, SafeRelative(p.target).value;
      RollbackDisk(d, p, fails).0 == d[CurrentPath(project) := Pointer(Posix(target))]
    ensures Released(RollbackDisk(d, p, fails).0, p.project, p.target)
  {
    var project, target := SafeRelative(p.project).value, SafeRelative(p.target).value;
    AcceptedNamesAreStable(p.target);
    PosixNonEmpty(target);
    assert IsDir(d, project + target) && project + target != CurrentPath(project);
  }

  lemma RollbackMeansActivated(g: Graph, d: Disk, p: R.Plan, fails: bool, runner: Option<A.Evidence>)
    requires g.fixed.Some? && R.Confirmed(g.screen, RollbackSetup(g), p, RollbackReplies(g, d, p, fails, runner))
    ensures p.project == A.DEFAULT_PROJECT && runner.Some?
    ensures A.RunnerEvidence(g.screen, runner.value, R.ActivationRequest(p))
  {
    var e := A.Activate(g.fixed.value, g.screen, R.ActivationRequest(p), runner);
    assert R.ActivationOf(RollbackReplies(g, d, p, fails, runner)) == e;
    assert e.state == A.ACTIVATED;
  }

  /** A rollback that becomes VERIFIED was agreed by two people, leaves CURRENT reading as its target,
      an existing directory, and changes nothing else on the disk; with a fixed activation configured,
      the runner confirmed it for the control-center project. */
  lemma VerifiedMeansRolledBack(
      g: Graph, s: Desk, id: string, p: R.Plan, fails: bool, runner: Option<A.Evidence>, disk: Disk)
    requires R.Sound(s.rollbacks) && id in s.rollbacks.plans && s.rollbacks.plans[id] == p && p.state != R.VERIFIED
    requires NextRollbacks(g, s, RunRollback(id, fails, runner), true).plans[id].state == R.VERIFIED
    requires disk == NextDisk(g, s, RunRollback(id, fails, runner))
    ensures R.Agreed(p) && Released(disk, p.project, p.target)
    ensures var project, target := SafeRelative(p.project).value, SafeRelative(p.target).value;
      disk == s.disk[CurrentPath(project) := Pointer(Posix(target))]
    ensures g.fixed.Some? ==>
      p.project == A.DEFAULT_PROJECT && runner.Some? && A.RunnerEvidence(g.screen, runner.value, R.ActivationRequest(p))
  {
    assert R.SoundPlan(p, s.rollbacks.calls);
    var replies := RollbackReplies(g, s.disk, p, fails, runner);
    RollbackWasJudged(g.screen, RollbackSetup(g), s.rollbacks, id, replies);
    RevertibleDisk(g, s, id, fails, runner, replies);
    ConfirmedMeansSwitched(s.disk, p, fails);
    if g.fixed.Some? {
      RollbackMeansActivated(g, s.disk, p, fails, runner);
    }
  }

  // ----- the default composition -----

  /** The default graph has no release provider, or an activation boundary without a runner. */
  predicate Inert(g: Graph) {
    !g.provider || (g.fixed.Some? && !(g.fixed.value.enabled && g.fixed.value.runner))
  }

  ghost predicate Untouched(s: Desk) {
    s.disk == START.disk && DeploymentsUntouched(s.deployments) && RollbacksUntouched(s.rollbacks)
  }

  lemma InertDeploy(g: Graph, s: Desk, p: D.Plan, fault: Fault, runner: Option<A.Evidence>)
    requires Inert(g)
    ensures !D.Deployable(g.screen, DeploySetup(g), s.backups, p, DeployReplies(g, s.disk, p, fault, runner))
  {
    if g.fixed.Some? {
      assert D.PreflightOf(DeployReplies(g, s.disk, p, fault, runner)) ==
        A.Preflight(g.fixed.value, g.screen, D.ActivationRequest(p));
    }
  }

  lemma InertRollback(g: Graph, s: Desk, p: R.Plan, pointerFails: bool, runner: Option<A.Evidence>)
    requires Inert(g)
    ensures !R.Revertible(g.screen, RollbackSetup(g), p, RollbackReplies(g, s.disk, p, pointerFails, runner))
  {
    if g.fixed.Some? {
      assert R.PreflightOf(RollbackReplies(g, s.disk, p, pointerFails, runner)) ==
        A.Preflight(g.fixed.value, g.screen, R.ActivationRequest(p));
    }
  }

  ghost predicate DeploymentsUntouched(b: D.Book) {
    b.calls == [] && forall id | id in b.plans :: b.plans[id].state != D.VERIFIED
  }

  ghost predicate RollbacksUntouched(b: R.Book) {
    b.calls == [] && forall id | id in b.plans :: b.plans[id].state != R.VERIFIED
  }

  lemma DeploymentStepUntouched(x: Screen, setup: D.Setup, backups: map<string, B.Record>, b: D.Book, e: D.Event,
      saves: bool)
    requires DeploymentsUntouched(b)
    requires e.Execute? && e.executed in b.plans ==> !D.Deployable(x, setup, backups, b.plans[e.executed], e.replies)
    ensures DeploymentsUntouched(D.Step(x, setup, backups, b, e, saves))
  {
  }

  lemma RollbackStepUntouched(x: Screen, setup: R.Setup, b: R.Book, e: R.Event, saves: bool)
    requires RollbacksUntouched(b)
    requires e.Execute? && e.executed in b.plans ==> !R.Revertible(x, setup, b.plans[e.executed], e.replies)
    ensures RollbacksUntouched(R.Step(x, setup, b, e, saves))
  {
  }

  lemma StepUntouched(g: Graph, s: Desk, e: Event, saves: bool)
    requires Inert(g) && Untouched(s)
    ensures Untouched(Step(g, s, e, saves))
  {
    match e {
      case BackupEvent(_, _) =>
      case DeployEvent(d) =>
        if !d.Execute? { DeploymentStepUntouched(g.screen, DeploySetup(g), s.backups, s.deployments, d, saves); }
      case RunDeploy(id, fault, runner, now) =>
        if id in s.deployments.plans {
          InertDeploy(g, s, s.deployments.plans[id], fault, runner);
          DeploymentStepUntouched(g.screen, DeploySetup(g), s.backups, s.deployments,
            D.Execute(id, DeployReplies(g, s.disk, s.deployments.plans[id], fault, runner), now), saves);
        }
      case RollbackEvent(r) =>
        if !r.Execute? { RollbackStepUntouched(g.screen, RollbackSetup(g), s.rollbacks, r, saves); }
      case RunRollback(id, pointerFails, runner) =>
        if id in s.rollbacks.plans {
          InertRollback(g, s, s.rollbacks.plans[id], pointerFails, runner);
          RollbackStepUntouched(g.screen, RollbackSetup(g), s.rollbacks,
            R.Execute(id, RollbackReplies(g, s.disk, s.rollbacks.plans[id], pointerFails, runner)), saves);
        }
    }
  }

  /** In the default composition no run ever calls the release provider, changes the release root or
      verifies a deployment or a rollback. */
  lemma {:induction false} DefaultCompositionChangesNothing(g: Graph, events: seq<(Event, bool)>)
    requires Inert(g)
    ensures Untouched(Run(g, events))
  {
    if events != [] {
      DefaultCompositionChangesNothing(g, events[..|events| - 1]);
      var (e, saves) := events[|events| - 1];
      StepUntouched(g, Run(g, events[..|events| - 1]), e, saves);
    }
  }
}
