// process_request of the gateway: the fixed sequence of request stages, each
// of which may abort the request early, followed by execute and complete.
// Each stage's own work (handler lookup, authorisation, permission checks) is
// outside this model; what a stage would report is an input.

module RequestPipeline {
  import opened Wrappers

  /** The stages, in the order process_request runs them. */
  datatype Stage =
    | GetHandler | GetOp | Authorize | SuspendedCheck | ReadPermissions
    | InitProcessing | VerifyOpMask | VerifyPermission | VerifyParams

  /** Number of stages. */
  const StageCount: nat := 9

  /** The stage at position `i` of the order in which process_request runs them. */
  function StageAt(i: nat): Stage
    requires i < StageCount
  {
    if i == 0 then GetHandler
    else if i == 1 then GetOp
    else if i == 2 then Authorize
    else if i == 3 then SuspendedCheck
    else if i == 4 then ReadPermissions
    else if i == 5 then InitProcessing
    else if i == 6 then VerifyOpMask
    else if i == 7 then VerifyPermission
    else VerifyParams
  }

  /** The first `n` stages, in order. */
  function StagesUpTo(n: nat): (ss: seq<Stage>)
    requires n <= StageCount
    ensures |ss| == n && forall i :: 0 <= i < n ==> ss[i] == StageAt(i)
  {
    seq(n, (i: nat) requires i < n => StageAt(i))
  }

  /**
   * What each stage reports when it runs: init_error of get_handler, whether
   * get_op found an op, the return codes of the checks, the user's suspended
   * flag, the request's system flag and the REST manager's logging flag.
   */
  datatype StageResults = StageResults(
    initError: int,
    hasOp: bool,
    authorize: int,
    suspended: bool,
    readPermissions: int,
    initProcessing: int,
    verifyOpMask: int,
    verifyPermission: int,
    systemRequest: bool,
    verifyParams: int,
    shouldLog: bool)

  /** The error handed to abort_early. */
  datatype AbortCode = StageError(code: int) | MethodNotAllowed | UserSuspended

  /**
   * The observable course of one request: the stages run, the abort (if any),
   * whether execute and complete ran, whether the op was logged, and the value returned.
   */
  datatype Outcome = Outcome(stagesRun: seq<Stage>, abort: Option<AbortCode>, executed: bool, logged: bool, ret: int)

  /** process_request, with its early exits in source order. */
  function ProcessRequest(o: StageResults): (r: Outcome)
    ensures 1 <= |r.stagesRun| <= StageCount
    ensures r.executed <==> r.abort.None?
    ensures r.executed ==> |r.stagesRun| == StageCount && r.ret == o.verifyParams
    ensures r.logged <==> o.shouldLog && o.initError == 0
    ensures r.abort.Some? && r.abort.value.StageError? ==> r.abort.value.code != 0
  {
    var log := o.shouldLog;
    if o.initError != 0 then
      Outcome([GetHandler], Some(StageError(o.initError)), false, false, 0)
    else if !o.hasOp then
      Outcome([GetHandler, GetOp], Some(MethodNotAllowed), false, log, 0)
    else if o.authorize < 0 then
      Outcome([GetHandler, GetOp, Authorize], Some(StageError(o.authorize)), false, log, o.authorize)
    else if o.suspended then
      Outcome([GetHandler, GetOp, Authorize, SuspendedCheck], Some(UserSuspended), false, log, o.authorize)
    else if o.readPermissions < 0 then
      Outcome([GetHandler, GetOp, Authorize, SuspendedCheck, ReadPermissions], Some(StageError(o.readPermissions)), false, log, o.readPermissions)
    else if o.initProcessing < 0 then
      Outcome([GetHandler, GetOp, Authorize, SuspendedCheck, ReadPermissions, InitProcessing], Some(StageError(o.initProcessing)), false, log, o.initProcessing)
    else if o.verifyOpMask < 0 then
      Outcome([GetHandler, GetOp, Authorize, SuspendedCheck, ReadPermissions, InitProcessing, VerifyOpMask], Some(StageError(o.verifyOpMask)), false, log, o.verifyOpMask)
    else if o.verifyPermission < 0 && !o.systemRequest then
      Outcome([GetHandler, GetOp, Authorize, SuspendedCheck, ReadPermissions, InitProcessing, VerifyOpMask, VerifyPermission], Some(StageError(o.verifyPermission)), false, log, o.verifyPermission)
    else if o.verifyParams < 0 then
      Outcome([GetHandler, GetOp, Authorize, SuspendedCheck, ReadPermissions, InitProcessing, VerifyOpMask, VerifyPermission, VerifyParams], Some(StageError(o.verifyParams)), false, log, o.verifyParams)
    else
      Outcome([GetHandler, GetOp, Authorize, SuspendedCheck, ReadPermissions, InitProcessing, VerifyOpMask, VerifyPermission, VerifyParams], None, true, log, o.verifyParams)
  }

  // ---- An independent reference: run a list of stages, stopping at the first failure ----

  /** The abort a stage causes, or None when it passes. */
  function StageCheck(o: StageResults, st: Stage): Option<AbortCode>
  {
    match st
    case GetHandler => if o.initError != 0 then Some(StageError(o.initError)) else None
    case GetOp => if !o.hasOp then Some(MethodNotAllowed) else None
    case Authorize => if o.authorize < 0 then Some(StageError(o.authorize)) else None
    case SuspendedCheck => if o.suspended then Some(UserSuspended) else None
    case ReadPermissions => if o.readPermissions < 0 then Some(StageError(o.readPermissions)) else None
    case InitProcessing => if o.initProcessing < 0 then Some(StageError(o.initProcessing)) else None
    case VerifyOpMask => if o.verifyOpMask < 0 then Some(StageError(o.verifyOpMask)) else None
    case VerifyPermission =>
      if o.verifyPermission < 0 && !o.systemRequest then Some(StageError(o.verifyPermission)) else None
    case VerifyParams => if o.verifyParams < 0 then Some(StageError(o.verifyParams)) else None
  }

  /** The value a stage stores in `ret`, for the stages whose result is kept there. */
  function StageRet(o: StageResults, st: Stage): Option<int>
  {
    match st
    case Authorize => Some(o.authorize)
    case ReadPermissions => Some(o.readPermissions)
    case InitProcessing => Some(o.initProcessing)
    case VerifyOpMask => Some(o.verifyOpMask)
    case VerifyPermission => Some(o.verifyPermission)
    case VerifyParams => Some(o.verifyParams)
    case _ => None
  }

  /** The return value after running stage `st` from return value `ret`. */
  function NextRet(o: StageResults, st: Stage, ret: int): int
  {
    if StageRet(o, st).Some? then StageRet(o, st).value else ret
  }

  /** A reference run: how many stages ran, the abort, whether all passed, and `ret`. */
  datatype Run = Run(count: nat, abort: Option<AbortCode>, executed: bool, ret: int)

  /** Run the stages from position `k` with return value `ret`, stopping at the first that fails. */
  function RunFrom(o: StageResults, k: nat, ret: int): (r: Run)
    requires k <= StageCount
    ensures k <= r.count <= StageCount
    ensures r.executed <==> r.abort.None?
    ensures r.executed ==> r.count == StageCount
    decreases StageCount - k
  {
    if k == StageCount then Run(k, None, true, ret)
    else
      var ret' := NextRet(o, StageAt(k), ret);
      match StageCheck(o, StageAt(k))
      case Some(a) => Run(k + 1, Some(a), false, ret')
      case None => RunFrom(o, k + 1, ret')
  }

  /** The run executes exactly when every stage from `k` on passes. */
  lemma {:induction false} RunExecutesIffAllPass(o: StageResults, k: nat, ret: int)
    requires k <= StageCount
    ensures RunFrom(o, k, ret).executed
            <==> forall i :: k <= i < StageCount ==> StageCheck(o, StageAt(i)).None?
    decreases StageCount - k
  {
    if k < StageCount {
      RunExecutesIffAllPass(o, k + 1, NextRet(o, StageAt(k), ret));
    }
  }

  /**
   * A run that aborts stopped at its first failing stage: those before it
   * passed, and the abort is that stage's.
   */
  lemma {:induction false} RunAbortsAtFirstFailure(o: StageResults, k: nat, ret: int)
    requires k <= StageCount
    requires !RunFrom(o, k, ret).executed
    ensures var r := RunFrom(o, k, ret);
            && k < r.count
            && (forall i :: k <= i < r.count - 1 ==> StageCheck(o, StageAt(i)).None?)
            && r.abort == StageCheck(o, StageAt(r.count - 1))
    decreases StageCount - k
  {
    if StageCheck(o, StageAt(k)).None? {
      RunAbortsAtFirstFailure(o, k + 1, NextRet(o, StageAt(k), ret));
    }
  }

  /** The return value held when the stage at position `k` starts. */
  function RetBefore(o: StageResults, k: nat): int
    requires k <= StageCount
  {
    if k == 0 then 0 else NextRet(o, StageAt(k - 1), RetBefore(o, k - 1))
  }

  /** When the stages before position `k` pass, the run from the start is the run from `k`. */
  lemma {:induction false} RunPassesPrefix(o: StageResults, k: nat)
    requires k <= StageCount
    requires forall i :: 0 <= i < k ==> StageCheck(o, StageAt(i)).None?
    ensures RunFrom(o, 0, 0) == RunFrom(o, k, RetBefore(o, k))
  {
    if k > 0 {
      RunPassesPrefix(o, k - 1);
    }
  }

  /** The stages process_request ran are always the first ones of the stage order. */
  lemma StagesRunArePrefix(o: StageResults)
    ensures var n := |ProcessRequest(o).stagesRun|;
            0 < n <= StageCount && ProcessRequest(o).stagesRun == StagesUpTo(n)
  {
    var r := ProcessRequest(o);
    var n := |r.stagesRun|;
    assert forall i :: 0 <= i < n ==> r.stagesRun[i] == StageAt(i);
  }

  /** process_request stops where the reference run stops, with the same abort, execution and return value. */
  lemma ProcessRequestMatchesRun(o: StageResults)
    ensures var r := ProcessRequest(o);
            var ref := RunFrom(o, 0, 0);
            |r.stagesRun| == ref.count && r.abort == ref.abort
            && r.executed == ref.executed && r.ret == ref.ret
  {
    if o.initError != 0 {
      RunPassesPrefix(o, 0);
    } else if !o.hasOp {
      RunPassesPrefix(o, 1);
    } else if o.authorize < 0 {
      RunPassesPrefix(o, 2);
    } else if o.suspended {
      RunPassesPrefix(o, 3);
    } else if o.readPermissions < 0 {
      RunPassesPrefix(o, 4);
    } else if o.initProcessing < 0 {
      RunPassesPrefix(o, 5);
    } else if o.verifyOpMask < 0 {
      RunPassesPrefix(o, 6);
    } else if o.verifyPermission < 0 && !o.systemRequest {
      RunPassesPrefix(o, 7);
    } else if o.verifyParams < 0 {
      RunPassesPrefix(o, 8);
    } else {
      RunPassesPrefix(o, 9);
    }
  }

  /** process_request runs the stages in order and stops at the first failure. */
  lemma ProcessRequestFollowsStageOrder(o: StageResults)
    ensures var r := ProcessRequest(o);
            var ref := RunFrom(o, 0, 0);
            r.stagesRun == StagesUpTo(ref.count) && r.abort == ref.abort
            && r.executed == ref.executed && r.ret == ref.ret
    ensures ProcessRequest(o).logged <==> o.shouldLog && o.initError == 0
  {
    StagesRunArePrefix(o);
    ProcessRequestMatchesRun(o);
  }

  /** Execute and complete run exactly when every stage passes. */
  lemma ExecutesIffEveryStagePasses(o: StageResults)
    ensures ProcessRequest(o).executed
            <==> o.initError == 0 && o.hasOp && o.authorize >= 0 && !o.suspended
                 && o.readPermissions >= 0 && o.initProcessing >= 0 && o.verifyOpMask >= 0
                 && (o.verifyPermission >= 0 || o.systemRequest) && o.verifyParams >= 0
  {
    ProcessRequestFollowsStageOrder(o);
    RunExecutesIffAllPass(o, 0, 0);
  }

  /** An aborted request was aborted by the first stage that failed, and nothing after it ran. */
  lemma AbortIsFirstFailure(o: StageResults)
    requires !ProcessRequest(o).executed
    ensures var r := ProcessRequest(o);
            var n := |r.stagesRun|;
            && 0 < n <= StageCount && r.stagesRun == StagesUpTo(n)
            && (forall i :: 0 <= i < n - 1 ==> StageCheck(o, StageAt(i)).None?)
            && r.abort == StageCheck(o, StageAt(n - 1))
  {
    ProcessRequestFollowsStageOrder(o);
    RunAbortsAtFirstFailure(o, 0, 0);
  }

  /** A failed handler lookup aborts first, is not logged, and returns 0. */
  lemma HandlerErrorIsNotLogged(o: StageResults)
    requires o.initError != 0
    ensures ProcessRequest(o).abort == Some(StageError(o.initError))
    ensures !ProcessRequest(o).logged && ProcessRequest(o).ret == 0
    ensures ProcessRequest(o).stagesRun == [GetHandler]
  {
  }

  /** A handler without an op is refused with ERR_METHOD_NOT_ALLOWED before authorisation. */
  lemma MissingOpIsMethodNotAllowed(o: StageResults)
    requires o.initError == 0 && !o.hasOp
    ensures ProcessRequest(o).abort == Some(MethodNotAllowed)
    ensures Authorize !in ProcessRequest(o).stagesRun && !ProcessRequest(o).executed
    ensures ProcessRequest(o).ret == 0
  {
  }

  /** A suspended user is refused with ERR_USER_SUSPENDED, after authorisation and before the permission checks. */
  lemma SuspendedUserIsRefused(o: StageResults)
    requires o.initError == 0 && o.hasOp && o.authorize >= 0 && o.suspended
    ensures ProcessRequest(o).abort == Some(UserSuspended)
    ensures ProcessRequest(o).stagesRun == [GetHandler, GetOp, Authorize, SuspendedCheck]
    ensures ProcessRequest(o).ret == o.authorize
  {
  }

  /** A failing verify_permission is overlooked exactly for a system request. */
  lemma PermissionFailureIgnoredOnlyForSystem(o: StageResults)
    requires o.initError == 0 && o.hasOp && o.authorize >= 0 && !o.suspended
    requires o.readPermissions >= 0 && o.initProcessing >= 0 && o.verifyOpMask >= 0
    requires o.verifyPermission < 0
    ensures !o.systemRequest ==> ProcessRequest(o).abort == Some(StageError(o.verifyPermission))
                                 && VerifyParams !in ProcessRequest(o).stagesRun
    ensures o.systemRequest ==> VerifyParams in ProcessRequest(o).stagesRun
                                && (ProcessRequest(o).executed <==> o.verifyParams >= 0)
                                && ProcessRequest(o).ret == o.verifyParams
  {
  }
}
