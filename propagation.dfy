/** What the region semantics promises: how a catch clause is chosen, what a
    region without an error does, when the active error is cleared, and how
    the depth guard stops runaway recursion. */
module Propagation {
  import opened ErrorTypes
  import opened Messages
  import opened TryStack
  import opened Regions

  /** The position of the first clause from i on that takes an error of type
      t, or |catches| when none does. */
  function FirstMatch(reg: Registry, catches: seq<CatchBlock>, t: TypeRef, i: nat): (j: nat)
    requires WellFormed(reg) && t < |reg| && i <= |catches|
    ensures i <= j <= |catches|
    ensures j < |catches| ==> Matches(reg, catches[j].clause, t)
    ensures forall k :: i <= k < j ==> !Matches(reg, catches[k].clause, t)
    decreases |catches| - i
  {
    if i == |catches| then i
    else if Matches(reg, catches[i].clause, t) then i
    else FirstMatch(reg, catches, t, i + 1)
  }

  /** Once the region is in Catch, the clauses from i on are tested in order
      without calling the handlers again; the first that matches runs its
      body with the region in End and the error no longer uncaught; when none
      matches the context is left as it was and the error stays raised. */
  lemma {:induction false} CatchesInOrder(cfg: Config, s: State, log: seq<Observation>, stmt: Stmt, i: nat)
    requires ValidConfig(cfg) && Inv(cfg, s) && StmtOk(cfg, stmt) && IsRegion(stmt)
    requires s.tryTotal >= 1 && i <= |stmt.catches|
    requires s.error.Error? && s.tryList[s.tryTotal].state == Catch
    ensures var j := FirstMatch(cfg.reg, stmt.catches, s.error.errorType, i);
      (j < |stmt.catches| ==>
         EvalCatches(cfg, s, log, stmt, i)
         == Eval(cfg, s.(tryList := s.tryList[s.tryTotal := Frame(End, false)]), log, stmt.catches[j].body))
      && (j == |stmt.catches| ==> EvalCatches(cfg, s, log, stmt, i) == Execution(s, log, Raised))
    decreases |stmt.catches| - i
  {
    if i < |stmt.catches| && !Matches(cfg.reg, stmt.catches[i].clause, s.error.errorType) {
      CatchesInOrder(cfg, s, log, stmt, i + 1);
    }
  }

  /** The state in which the catch clauses see an error that has just
      arrived: one call to every handler with the region's depth and whether
      the first clause is CATCH_FATAL, and the region moved to Catch. */
  function Arrived(s: State, fatal: bool): (r: State)
    requires 1 <= s.tryTotal < |s.tryList|
    ensures |r.tryList| == |s.tryList| && r.tryList[s.tryTotal] == s.tryList[s.tryTotal].(state := Catch)
  {
    var d := s.tryTotal;
    s.(handlerCalls := s.handlerCalls + Calls(s.handlerList, d, fatal),
       tryList := s.tryList[d := s.tryList[d].(state := Catch)])
  }

  /** Catch resolution for an error that arrives while the region is in Try:
      the handlers are called once, then the first matching clause wins; with
      no matching clause the error stays raised and the region in Catch. */
  lemma CatchResolution(cfg: Config, s: State, log: seq<Observation>, stmt: Stmt)
    requires ValidConfig(cfg) && Inv(cfg, s) && StmtOk(cfg, stmt) && IsRegion(stmt)
    requires s.tryTotal >= 1 && |stmt.catches| >= 1
    requires s.error.Error? && s.tryList[s.tryTotal].state == Try
    ensures var a := Arrived(s, stmt.catches[0].clause.Fatal?);
      var j := FirstMatch(cfg.reg, stmt.catches, s.error.errorType, 0);
      (j < |stmt.catches| ==>
         EvalCatches(cfg, s, log, stmt, 0)
         == Eval(cfg, a.(tryList := a.tryList[s.tryTotal := Frame(End, false)]), log, stmt.catches[j].body))
      && (j == |stmt.catches| ==> EvalCatches(cfg, s, log, stmt, 0) == Execution(a, log, Raised))
  {
    var a := Arrived(s, stmt.catches[0].clause.Fatal?);
    if !Matches(cfg.reg, stmt.catches[0].clause, s.error.errorType) {
      CatchesInOrder(cfg, a, log, stmt, 1);
    }
  }

  /** A region whose protected code completes without an error: FINALLY runs
      with the region still in Try and nothing uncaught, no catch clause runs,
      and the region completes exactly as its FINALLY code does. */
  lemma RegionWithoutError(cfg: Config, s: State, log: seq<Observation>, stmt: Stmt)
    requires ValidConfig(cfg) && Inv(cfg, s) && StmtOk(cfg, stmt) && IsRegion(stmt)
    requires s.tryTotal < cfg.tryMax
    ensures var s1 := TryBegin(cfg, s, stmt.site).0;
      var rb := Eval(cfg, s1, log, RegionBody(stmt));
      rb.outcome == Normal ==>
        rb.state.tryList[s1.tryTotal] == Frame(Try, false)
        && var rf := Eval(cfg, rb.state, rb.log, stmt.final);
        EvalRegion(cfg, s, log, stmt) == Execution(TryEnd(cfg, rf.state).0, rf.log, rf.outcome)
  {
    var s1 := TryBegin(cfg, s, stmt.site).0;
    var rb := Eval(cfg, s1, log, RegionBody(stmt));
    EvalFrames(cfg, s1, log, RegionBody(stmt));
    if rb.outcome == Normal {
      EvalFrames(cfg, rb.state, rb.log, stmt.final);
    }
  }

  /** A region whose protected code raises: the error arrives with the region
      in Try and marked uncaught, and the region goes on with the catch
      clauses, FINALLY and TRY_END. */
  lemma RaisedRegion(cfg: Config, s: State, log: seq<Observation>, stmt: Stmt)
    requires ValidConfig(cfg) && Inv(cfg, s) && StmtOk(cfg, stmt) && IsRegion(stmt)
    requires s.tryTotal < cfg.tryMax
    ensures var s1 := TryBegin(cfg, s, stmt.site).0;
      var rb := Eval(cfg, s1, log, RegionBody(stmt));
      rb.outcome == Raised ==>
        rb.state.tryList[s1.tryTotal] == Frame(Try, true)
        && var rc := EvalCatches(cfg, rb.state, rb.log, stmt, 0);
        var rf := Eval(cfg, rc.state, rc.log, stmt.final);
        var (s2, propagate) := TryEnd(cfg, rf.state);
        EvalRegion(cfg, s, log, stmt) == Execution(s2, rf.log, if propagate then Raised else Normal)
  {
    var s1 := TryBegin(cfg, s, stmt.site).0;
    EvalFrames(cfg, s1, log, RegionBody(stmt));
  }

  /** The same for a region whose body observes first, stated over the code
      after the observation. */
  lemma RaisedBody(cfg: Config, s: State, log: seq<Observation>, stmt: Stmt)
    requires ValidConfig(cfg) && Inv(cfg, s) && StmtOk(cfg, stmt) && stmt.Region? && stmt.body.Seq?
    requires stmt.body.first.Observe? && StmtOk(cfg, stmt.body.second) && s.tryTotal < cfg.tryMax
    ensures var s1 := TryBegin(cfg, s, stmt.site).0;
      var inner := Eval(cfg, s1, log + [Snapshot(cfg, s1, stmt.body.first.point)], stmt.body.second);
      inner.outcome == Raised ==>
        inner.state.tryList[s1.tryTotal] == Frame(Try, true)
        && var rc := EvalCatches(cfg, inner.state, inner.log, stmt, 0);
        var rf := Eval(cfg, rc.state, rc.log, stmt.final);
        var (s2, propagate) := TryEnd(cfg, rf.state);
        EvalRegion(cfg, s, log, stmt) == Execution(s2, rf.log, if propagate then Raised else Normal)
  {
    var s1 := TryBegin(cfg, s, stmt.site).0;
    var log1 := log + [Snapshot(cfg, s1, stmt.body.first.point)];
    assert Eval(cfg, s1, log, stmt.body.first) == Execution(s1, log1, Normal);
    assert Eval(cfg, s1, log, RegionBody(stmt)) == Eval(cfg, s1, log1, stmt.body.second);
    RaisedRegion(cfg, s, log, stmt);
  }

  /** A region opened when none was open either completes with the active
      error cleared, or lets an error out of the program. */
  lemma {:induction false} TopLevelClears(cfg: Config, s: State, log: seq<Observation>, stmt: Stmt)
    requires ValidConfig(cfg) && Inv(cfg, s) && StmtOk(cfg, stmt) && IsRegion(stmt)
    requires s.tryTotal == 0
    ensures var r := Eval(cfg, s, log, stmt);
      r.outcome == Normal ==> r.state.error == NoError
  {
    assert Eval(cfg, s, log, stmt) == EvalRegion(cfg, s, log, stmt);
  }

  /** What the program ends with: it completes, or an error leaves every
      region and the process exits with UnhandledError's code. */
  datatype Termination = Completed | Exited(status: int)

  function Terminate(cfg: Config, r: Execution): (t: Termination)
    requires ValidConfig(cfg)
    ensures t.Exited? <==> r.outcome == Raised
    ensures t.Exited? ==> t.status == cfg.reg[cfg.known.unhandledError].code
  {
    if r.outcome == Raised then Exited(cfg.reg[cfg.known.unhandledError].code) else Completed
  }

  /** The handler calls on record after `before`, once the regions at
      depths top, top - 1, ..., d + 1 have each seen the guard's error arrive
      at a clause that is not CATCH_FATAL, innermost first. */
  function NestedCalls(before: seq<HandlerCall>, handlers: seq<Handler>, d: nat, top: nat): (r: seq<HandlerCall>)
    requires d <= top
    ensures before <= r
    decreases top - d
  {
    if d == top then before else NestedCalls(before, handlers, d + 1, top) + Calls(handlers, d + 1, false)
  }

  /** testTryRecurse: a function whose whole body is a region that observes
      `enter` and calls itself, with one CATCH(c) clause observing `caught`
      and a FINALLY observing `final`. */
  function Recurse(site: Site, enter: string, c: TypeRef, caught: string, final: string): (r: Stmt)
    ensures IsRegion(r)
    ensures forall cfg: Config :: c < |cfg.reg| ==> StmtOk(cfg, r)
  {
    RecursiveRegion(site, Observe(enter), [CatchBlock(Exact(c), Observe(caught))], Observe(final))
  }

  /** Reference definition of the recursion's run, level by level, without
      the statement language: at ERROR_TRY_MAX the guard raises AssertError;
      below it a region is opened, the deeper level runs, the error arrives
      at the one catch clause, FINALLY is observed and TRY_END passes the
      error on. */
  function GuardRun(cfg: Config, s: State, log: seq<Observation>, site: Site, enter: string, final: string): (r: Execution)
    requires ValidConfig(cfg) && Inv(cfg, s)
    ensures Inv(cfg, r.state) && r.state.tryTotal == s.tryTotal
    ensures r.outcome == Raised && r.state.error == Error(cfg.known.assertError, site)
    ensures r.state.message == Truncate(TooManyTries, cfg.bufferSize)
    ensures s.tryTotal >= 1 ==> r.state.tryList[s.tryTotal].uncaught
    ensures r.state.handlerList == s.handlerList
    ensures r.state.handlerCalls == NestedCalls(s.handlerCalls, s.handlerList, s.tryTotal, cfg.tryMax)
    decreases cfg.tryMax - s.tryTotal
  {
    if s.tryTotal >= cfg.tryMax then
      Execution(Raise(cfg, s, cfg.known.assertError, site, TooManyTries), log, Raised)
    else
      var s1 := TryBegin(cfg, s, site).0;
      var inner := GuardRun(cfg, s1, log + [Snapshot(cfg, s1, enter)], site, enter, final);
      var a := Arrived(inner.state, false);
      TryEndKeeps(cfg, a);
      Execution(TryEnd(cfg, a).0, inner.log + [Snapshot(cfg, a, final)], Raised)
  }

  /** Closing a region leaves the message and the handlers alone, and the
      error too when it moves on. */
  lemma TryEndKeeps(cfg: Config, s: State)
    requires ValidConfig(cfg) && Inv(cfg, s) && s.tryTotal >= 1
    ensures var (r, propagate) := TryEnd(cfg, s);
      r.message == s.message && r.handlerList == s.handlerList && r.handlerCalls == s.handlerCalls
      && (propagate ==> r.error == s.error && (r.tryTotal >= 1 ==> r.tryList[r.tryTotal].uncaught))
  {
  }

  /** One level of the recursion, once the deeper call has raised a fatal
      error: the only catch clause does not take it, FINALLY runs with the
      region in Catch, and TRY_END passes the error on. */
  lemma GuardStep(
    cfg: Config, s: State, log: seq<Observation>, site: Site, enter: string, c: TypeRef, caught: string, final: string)
    requires ValidConfig(cfg) && Inv(cfg, s) && c < |cfg.reg| && s.tryTotal < cfg.tryMax
    ensures var stmt := Recurse(site, enter, c, caught, final);
      var s1 := TryBegin(cfg, s, site).0;
      var inner := Eval(cfg, s1, log + [Snapshot(cfg, s1, enter)], stmt);
      inner.outcome == Raised && inner.state.error.Error? && cfg.reg[inner.state.error.errorType].fatal ==>
        var a := Arrived(inner.state, false);
        Eval(cfg, s, log, stmt) == Execution(TryEnd(cfg, a).0, inner.log + [Snapshot(cfg, a, final)], Raised)
  {
    var stmt := Recurse(site, enter, c, caught, final);
    var s1 := TryBegin(cfg, s, site).0;
    var log1 := log + [Snapshot(cfg, s1, enter)];
    var inner := Eval(cfg, s1, log1, stmt);
    assert Eval(cfg, s, log, stmt) == EvalRegion(cfg, s, log, stmt);
    assert Eval(cfg, s1, log, Observe(enter)) == Execution(s1, log1, Normal);
    assert Eval(cfg, s1, log, RegionBody(stmt)) == inner;
    EvalFrames(cfg, s1, log1, stmt);
    if inner.outcome == Raised && inner.state.error.Error? && cfg.reg[inner.state.error.errorType].fatal {
      var a := Arrived(inner.state, false);
      assert EvalCatches(cfg, a, inner.log, stmt, 1) == Execution(a, inner.log, Raised);
      assert EvalCatches(cfg, inner.state, inner.log, stmt, 0) == Execution(a, inner.log, Raised);
    }
  }

  /** The recursive function runs exactly as the reference definition says:
      since AssertError is fatal, its CATCH clause never takes the error. */
  lemma {:induction false} RecurseIsGuardRun(
    cfg: Config, s: State, log: seq<Observation>, site: Site, enter: string, c: TypeRef, caught: string, final: string)
    requires ValidConfig(cfg) && Inv(cfg, s) && c < |cfg.reg|
    ensures Eval(cfg, s, log, Recurse(site, enter, c, caught, final)) == GuardRun(cfg, s, log, site, enter, final)
    decreases cfg.tryMax - s.tryTotal
  {
    var stmt := Recurse(site, enter, c, caught, final);
    assert Eval(cfg, s, log, stmt) == EvalRegion(cfg, s, log, stmt);
    if s.tryTotal < cfg.tryMax {
      var s1 := TryBegin(cfg, s, site).0;
      RecurseIsGuardRun(cfg, s1, log + [Snapshot(cfg, s1, enter)], site, enter, c, caught, final);
      GuardStep(cfg, s, log, site, enter, c, caught, final);
    }
  }

  /** The recursion only appends to the log: two observations per level. */
  lemma {:induction false} GuardRunLength(cfg: Config, s: State, log: seq<Observation>, site: Site, enter: string, final: string)
    requires ValidConfig(cfg) && Inv(cfg, s)
    ensures var r := GuardRun(cfg, s, log, site, enter, final);
      |r.log| == |log| + 2 * (cfg.tryMax - s.tryTotal) && r.log[..|log|] == log
    decreases cfg.tryMax - s.tryTotal
  {
    if s.tryTotal < cfg.tryMax {
      var s1 := TryBegin(cfg, s, site).0;
      var log1 := log + [Snapshot(cfg, s1, enter)];
      var inner := GuardRun(cfg, s1, log1, site, enter, final);
      GuardRunLength(cfg, s1, log1, site, enter, final);
      var r := GuardRun(cfg, s, log, site, enter, final);
      assert r.log == inner.log + [Snapshot(cfg, Arrived(inner.state, false), final)];
      assert r.log[..|log|] == inner.log[..|log1|][..|log|];
    }
  }

  /** What the recursion shows first: the body at each depth d + 1 up to
      ERROR_TRY_MAX, outermost first. */
  lemma {:induction false} GuardRunEnters(cfg: Config, s: State, log: seq<Observation>, site: Site, enter: string, final: string)
    requires ValidConfig(cfg) && Inv(cfg, s)
    ensures var r := GuardRun(cfg, s, log, site, enter, final);
      |r.log| == |log| + 2 * (cfg.tryMax - s.tryTotal)
      && forall k :: |log| <= k < |log| + cfg.tryMax - s.tryTotal ==>
        r.log[k].point == enter && r.log[k].depth == s.tryTotal + 1 + (k - |log|)
    decreases cfg.tryMax - s.tryTotal
  {
    GuardRunLength(cfg, s, log, site, enter, final);
    if s.tryTotal < cfg.tryMax {
      var s1 := TryBegin(cfg, s, site).0;
      var log1 := log + [Snapshot(cfg, s1, enter)];
      var inner := GuardRun(cfg, s1, log1, site, enter, final);
      GuardRunEnters(cfg, s1, log1, site, enter, final);
      GuardRunLength(cfg, s1, log1, site, enter, final);
      var r := GuardRun(cfg, s, log, site, enter, final);
      assert r.log == inner.log + [Snapshot(cfg, Arrived(inner.state, false), final)];
      forall k | |log| <= k < |log| + cfg.tryMax - s.tryTotal
        ensures r.log[k].point == enter && r.log[k].depth == s.tryTotal + 1 + (k - |log|)
      {
        assert r.log[k] == inner.log[k];
        if k == |log| {
          assert inner.log[k] == inner.log[..|log1|][k] == log1[k];
        }
      }
    }
  }

  /** What the recursion shows next: each FINALLY, from ERROR_TRY_MAX down to
      depth d + 1, and nothing after them. */
  lemma {:induction false} GuardRunFinals(cfg: Config, s: State, log: seq<Observation>, site: Site, enter: string, final: string)
    requires ValidConfig(cfg) && Inv(cfg, s)
    ensures var n := cfg.tryMax - s.tryTotal;
      var r := GuardRun(cfg, s, log, site, enter, final);
      |r.log| == |log| + 2 * n
      && forall k :: |log| + n <= k < |r.log| ==>
        r.log[k].point == final && r.log[k].depth == cfg.tryMax - (k - |log| - n)
    decreases cfg.tryMax - s.tryTotal
  {
    GuardRunLength(cfg, s, log, site, enter, final);
    if s.tryTotal < cfg.tryMax {
      var s1 := TryBegin(cfg, s, site).0;
      var log1 := log + [Snapshot(cfg, s1, enter)];
      var inner := GuardRun(cfg, s1, log1, site, enter, final);
      GuardRunFinals(cfg, s1, log1, site, enter, final);
      GuardRunLength(cfg, s1, log1, site, enter, final);
      var r := GuardRun(cfg, s, log, site, enter, final);
      assert r.log == inner.log + [Snapshot(cfg, Arrived(inner.state, false), final)];
    }
  }
}
