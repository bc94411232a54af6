/** TRY_BEGIN / CATCH / CATCH_ANY / CATCH_FATAL / FINALLY / TRY_END and the
    throw macros, as the meaning of a small statement language. The
    non-local jump of a throw is the Raised outcome, which skips the rest of
    the enclosing sequence up to the catch resolution of the innermost open
    region. */
module Regions {
  import opened ErrorTypes
  import opened Messages
  import opened TryStack

  datatype Option<T> = None | Some(value: T)

  /** The message argument of a throw: a literal, a `%d` format with its
      arguments, or errorMessage(), the text currently in the buffer. */
  datatype Text = Literal(s: string) | Formatted(fmt: string, args: seq<int>) | CurrentMessage

  /** errno and its strerror text, captured at a system-error throw. */
  datatype OsError = OsError(errno: int, description: string)

  datatype CatchBlock = CatchBlock(clause: Clause, body: Stmt)

  /** Application code around the runtime. Observe(point) stands for the
      test's flags and assertions: it records what the runtime shows at that
      point. A region with no FINALLY has `final` == Skip. A RecursiveRegion
      is a function whose whole body is one region, calling itself after
      `body` (testTryRecurse). */
  datatype Stmt =
    | Skip
    | Observe(point: string)
    | Seq(first: Stmt, second: Stmt)
    | Throw(errorType: TypeRef, site: Site, text: Text)
    | ThrowCode(code: int, site: Site, text: Text)
    | ThrowSys(errorType: TypeRef, site: Site, text: Text, os: OsError)
    | ThrowOnSys(condition: bool, errorType: TypeRef, site: Site, text: Text, os: OsError)
    | Rethrow
    | SetHandlers(handlers: seq<Handler>)
    | Region(site: Site, body: Stmt, catches: seq<CatchBlock>, final: Stmt)
    | RecursiveRegion(site: Site, body: Stmt, catches: seq<CatchBlock>, final: Stmt)

  datatype Outcome = Normal | Raised

  /** What an Observe records: the point, errorTryDepth(), the phase of the
      innermost entry of tryList, the last handler call, the active error and
      the buffer text. */
  datatype Observation = Observation(
    point: string, depth: nat, phase: Phase, lastCall: Option<HandlerCall>, error: Error, message: string)

  datatype Execution = Execution(state: State, log: seq<Observation>, outcome: Outcome)

  /** Every type a statement names is registered. */
  predicate StmtOk(cfg: Config, stmt: Stmt)
  {
    match stmt
    case Seq(a, b) => StmtOk(cfg, a) && StmtOk(cfg, b)
    case Throw(t, _, _) => t < |cfg.reg|
    case ThrowSys(t, _, _, _) => t < |cfg.reg|
    case ThrowOnSys(_, t, _, _, _) => t < |cfg.reg|
    case Region(_, body, catches, final) =>
      StmtOk(cfg, body) && StmtOk(cfg, final)
      && forall i :: 0 <= i < |catches| ==> ClauseOk(cfg, catches[i].clause) && StmtOk(cfg, catches[i].body)
    case RecursiveRegion(_, body, catches, final) =>
      StmtOk(cfg, body) && StmtOk(cfg, final)
      && forall i :: 0 <= i < |catches| ==> ClauseOk(cfg, catches[i].clause) && StmtOk(cfg, catches[i].body)
    case _ => true
  }

  predicate ClauseOk(cfg: Config, clause: Clause)
  {
    clause.Exact? ==> clause.errorType < |cfg.reg|
  }

  /** The most recent handler call, which the test's handler records. */
  function LastCall(calls: seq<HandlerCall>): Option<HandlerCall>
  {
    if calls == [] then None else Some(calls[|calls| - 1])
  }

  function Snapshot(cfg: Config, s: State, point: string): Observation
    requires Inv(cfg, s)
  {
    Observation(point, s.tryTotal, s.tryList[s.tryTotal].state, LastCall(s.handlerCalls), s.error, s.message)
  }

  function Compose(s: State, text: Text): string
  {
    match text
    case Literal(m) => m
    case Formatted(f, args) => FormatD(f, args)
    case CurrentMessage => s.message
  }

  /** A region statement: Region or RecursiveRegion. */
  predicate IsRegion(stmt: Stmt)
  {
    stmt.Region? || stmt.RecursiveRegion?
  }

  /** What TRY_BEGIN protects: the body, and for a recursive function the
      call to itself that ends the body. */
  function RegionBody(stmt: Stmt): Stmt
    requires IsRegion(stmt)
  {
    if stmt.Region? then stmt.body else Seq(stmt.body, stmt)
  }

  /** What running a statement does to the context, the observation log and
      the control flow. Every statement leaves tryTotal as it found it: each
      region it opens is closed again, also when an error leaves it. */
  function Eval(cfg: Config, s: State, log: seq<Observation>, stmt: Stmt): (r: Execution)
    requires ValidConfig(cfg) && Inv(cfg, s) && StmtOk(cfg, stmt)
    ensures Inv(cfg, r.state) && r.state.tryTotal == s.tryTotal
    decreases cfg.tryMax - s.tryTotal, stmt, 1
  {
    match stmt
    case Skip => Execution(s, log, Normal)
    case Observe(point) => Execution(s, log + [Snapshot(cfg, s, point)], Normal)
    case Seq(a, b) =>
      var r1 := Eval(cfg, s, log, a);
      if r1.outcome == Raised then r1 else Eval(cfg, r1.state, r1.log, b)
    case Throw(t, site, text) =>
      Execution(Raise(cfg, s, t, site, Compose(s, text)), log, Raised)
    case ThrowCode(code, site, text) =>
      var t := TypeFromCode(cfg.reg, code, cfg.known.unknownError);
      Execution(Raise(cfg, s, t, site, Compose(s, text)), log, Raised)
    case ThrowSys(t, site, text, os) =>
      Execution(Raise(cfg, s, t, site, SysErrorMessage(Compose(s, text), os.errno, os.description)), log, Raised)
    case ThrowOnSys(condition, t, site, text, os) =>
      if condition then
        Execution(Raise(cfg, s, t, site, SysErrorMessage(Compose(s, text), os.errno, os.description)), log, Raised)
      else Execution(s, log, Normal)
    case Rethrow => Execution(MarkUncaught(cfg, s), log, Raised)
    case SetHandlers(handlers) => Execution(HandlerSet(s, handlers), log, Normal)
    case Region(_, _, _, _) => EvalRegion(cfg, s, log, stmt)
    case RecursiveRegion(_, _, _, _) => EvalRegion(cfg, s, log, stmt)
  }

  /** TRY_BEGIN ... TRY_END. When the region cannot be opened the guard's
      error is already raised in the enclosing region. Otherwise the body
      runs; an error from it goes through the catch clauses; the FINALLY
      code runs in every case; TRY_END decides whether the error moves on. */
  function EvalRegion(cfg: Config, s: State, log: seq<Observation>, stmt: Stmt): (r: Execution)
    requires ValidConfig(cfg) && Inv(cfg, s) && StmtOk(cfg, stmt) && IsRegion(stmt)
    ensures Inv(cfg, r.state) && r.state.tryTotal == s.tryTotal
    decreases cfg.tryMax - s.tryTotal, stmt, 0
  {
    var (s1, entered) := TryBegin(cfg, s, stmt.site);
    if !entered then Execution(s1, log, Raised)
    else
      var rb := Eval(cfg, s1, log, RegionBody(stmt));
      var rc := if rb.outcome == Normal then rb else EvalCatches(cfg, rb.state, rb.log, stmt, 0);
      var rf := Eval(cfg, rc.state, rc.log, stmt.final);
      var (s2, propagate) := TryEnd(cfg, rf.state);
      Execution(s2, rf.log, if propagate then Raised else Normal)
  }

  /** The catch clauses from position i on, tried in order; the first that
      takes the error runs its body. When none does the error stays
      uncaught. */
  function EvalCatches(cfg: Config, s: State, log: seq<Observation>, stmt: Stmt, i: nat): (r: Execution)
    requires ValidConfig(cfg) && Inv(cfg, s) && StmtOk(cfg, stmt) && IsRegion(stmt)
    requires s.tryTotal >= 1 && i <= |stmt.catches|
    ensures Inv(cfg, r.state) && r.state.tryTotal == s.tryTotal
    decreases cfg.tryMax - s.tryTotal, stmt, |stmt.catches| - i
  {
    if i == |stmt.catches| then Execution(s, log, Raised)
    else
      var (s1, taken) := CatchTest(cfg, s, stmt.catches[i].clause);
      if taken then Eval(cfg, s1, log, stmt.catches[i].body)
      else EvalCatches(cfg, s1, log, stmt, i + 1)
  }

  /** Frames below the current depth are not touched by running a statement. */
  ghost predicate SameBelow(s: State, r: State, depth: nat)
    requires depth <= |s.tryList| && depth <= |r.tryList|
  {
    forall k :: 0 <= k < depth ==> r.tryList[k] == s.tryList[k]
  }

  /** The jump of a throw lands in the innermost open region: a statement run
      at depth d touches no frame below d and never the phase of frame d; it
      leaves frame d's `uncaught` flag alone when it completes and sets it
      when it raises. */
  lemma {:induction false} EvalFrames(cfg: Config, s: State, log: seq<Observation>, stmt: Stmt)
    requires ValidConfig(cfg) && Inv(cfg, s) && StmtOk(cfg, stmt)
    ensures var r := Eval(cfg, s, log, stmt);
      SameBelow(s, r.state, s.tryTotal)
      && (s.tryTotal >= 1 ==>
            r.state.tryList[s.tryTotal].state == s.tryList[s.tryTotal].state
            && r.state.tryList[s.tryTotal].uncaught == (r.outcome == Raised || s.tryList[s.tryTotal].uncaught))
    decreases cfg.tryMax - s.tryTotal, stmt, 2
  {
    match stmt
    case Seq(a, b) =>
      var r1 := Eval(cfg, s, log, a);
      EvalFrames(cfg, s, log, a);
      if r1.outcome != Raised {
        EvalFrames(cfg, r1.state, r1.log, b);
      }
    case Region(_, _, _, _) => RegionFrames(cfg, s, log, stmt);
    case RecursiveRegion(_, _, _, _) => RegionFrames(cfg, s, log, stmt);
    case _ =>
  }

  /** TRY_BEGIN touches no frame at or below the current depth, except that
      the guard's error marks the current frame uncaught. */
  lemma TryBeginFrames(cfg: Config, s: State, site: Site)
    requires ValidConfig(cfg) && Inv(cfg, s)
    ensures var (r, entered) := TryBegin(cfg, s, site);
      (entered <==> s.tryTotal < cfg.tryMax)
      && (entered ==> SameBelow(s, r, s.tryTotal + 1))
      && (!entered ==>
            SameBelow(s, r, s.tryTotal) && r.tryTotal == s.tryTotal
            && (s.tryTotal >= 1 ==> r.tryList[s.tryTotal] == s.tryList[s.tryTotal].(uncaught := true)))
  {
  }

  /** TRY_END touches no frame below the enclosing one, and marks the
      enclosing one uncaught exactly when the closed region's error moves on. */
  lemma TryEndFrames(cfg: Config, s: State)
    requires ValidConfig(cfg) && Inv(cfg, s) && s.tryTotal >= 1
    ensures var (r, propagate) := TryEnd(cfg, s);
      var d := s.tryTotal - 1;
      propagate == s.tryList[s.tryTotal].uncaught
      && SameBelow(s, r, d)
      && (d >= 1 ==> r.tryList[d] == s.tryList[d].(uncaught := propagate || s.tryList[d].uncaught))
  {
  }

  lemma {:induction false} RegionFrames(cfg: Config, s: State, log: seq<Observation>, stmt: Stmt)
    requires ValidConfig(cfg) && Inv(cfg, s) && StmtOk(cfg, stmt) && IsRegion(stmt)
    ensures var r := EvalRegion(cfg, s, log, stmt);
      SameBelow(s, r.state, s.tryTotal)
      && (s.tryTotal >= 1 ==>
            r.state.tryList[s.tryTotal].state == s.tryList[s.tryTotal].state
            && r.state.tryList[s.tryTotal].uncaught == (r.outcome == Raised || s.tryList[s.tryTotal].uncaught))
    decreases cfg.tryMax - s.tryTotal, stmt, 1
  {
    var (s1, entered) := TryBegin(cfg, s, stmt.site);
    TryBeginFrames(cfg, s, stmt.site);
    if entered {
      var rb := Eval(cfg, s1, log, RegionBody(stmt));
      var rc := if rb.outcome == Normal then rb else EvalCatches(cfg, rb.state, rb.log, stmt, 0);
      var rf := Eval(cfg, rc.state, rc.log, stmt.final);
      InsideFrames(cfg, s1, log, stmt);
      var (s2, propagate) := TryEnd(cfg, rf.state);
      TryEndFrames(cfg, rf.state);
      assert EvalRegion(cfg, s, log, stmt) == Execution(s2, rf.log, if propagate then Raised else Normal);
      if s.tryTotal >= 1 {
        assert rf.state.tryList[s.tryTotal] == s1.tryList[s.tryTotal] == s.tryList[s.tryTotal];
      }
    }
  }

  /** Inside an open region, the body, the catch clauses and FINALLY leave
      the frames below the region alone. */
  lemma {:induction false} InsideFrames(cfg: Config, s1: State, log: seq<Observation>, stmt: Stmt)
    requires ValidConfig(cfg) && Inv(cfg, s1) && StmtOk(cfg, stmt) && IsRegion(stmt) && s1.tryTotal >= 1
    ensures var rb := Eval(cfg, s1, log, RegionBody(stmt));
      var rc := if rb.outcome == Normal then rb else EvalCatches(cfg, rb.state, rb.log, stmt, 0);
      var rf := Eval(cfg, rc.state, rc.log, stmt.final);
      SameBelow(s1, rf.state, s1.tryTotal)
    decreases cfg.tryMax - s1.tryTotal + 1, stmt, 0
  {
    var rb := Eval(cfg, s1, log, RegionBody(stmt));
    EvalFrames(cfg, s1, log, RegionBody(stmt));
    var rc := if rb.outcome == Normal then rb else EvalCatches(cfg, rb.state, rb.log, stmt, 0);
    if rb.outcome != Normal {
      CatchesFrames(cfg, rb.state, rb.log, stmt, 0);
    }
    EvalFrames(cfg, rc.state, rc.log, stmt.final);
  }

  lemma {:induction false} CatchesFrames(cfg: Config, s: State, log: seq<Observation>, stmt: Stmt, i: nat)
    requires ValidConfig(cfg) && Inv(cfg, s) && StmtOk(cfg, stmt) && IsRegion(stmt)
    requires s.tryTotal >= 1 && i <= |stmt.catches|
    ensures SameBelow(s, EvalCatches(cfg, s, log, stmt, i).state, s.tryTotal)
    decreases cfg.tryMax - s.tryTotal, stmt, |stmt.catches| - i
  {
    if i < |stmt.catches| {
      var (s1, taken) := CatchTest(cfg, s, stmt.catches[i].clause);
      if taken {
        EvalFrames(cfg, s1, log, stmt.catches[i].body);
      } else {
        CatchesFrames(cfg, s1, log, stmt, i + 1);
      }
    }
  }
}
