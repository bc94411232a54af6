/** The messages the test composes, rendered. */
module TestTexts {
  import opened Messages

  /** "message %d" with the argument n renders as "message " and n's
      digits. */
  lemma FormattedMessage(n: nat, digits: string)
    requires digits == NatToDecimal(n)
    ensures FormatD("message %d", [n]) == "message " + digits
  {
    assert "message %d" == "message " + "%d";
    FormatOneDirective("message ", n);
  }

  lemma Format77()
    ensures FormatD("message %d", [77]) == "message 77"
  {
    FormattedMessage(77, "77");
    assert "message " + "77" == "message 77";
  }

  lemma Format1()
    ensures FormatD("message %d", [1]) == "message 1"
  {
    FormattedMessage(1, "1");
    assert "message " + "1" == "message 1";
  }

  /** The suffix for a one-digit errno. */
  lemma Suffix(msg: string, errno: nat, digit: string, description: string)
    requires 0 < errno < 10 && digit == [DigitChar(errno)]
    ensures SysErrorMessage(msg, errno, description) == msg + ": [" + digit + "] " + description
  {
  }

  lemma MessageE2Big(msg: string, description: string)
    requires msg == "message" || msg == "message 77"
    ensures msg == "message" ==> SysErrorMessage(msg, 7, description) == "message: [7] " + description
    ensures msg == "message 77" ==> SysErrorMessage(msg, 7, description) == "message 77: [7] " + description
  {
    Suffix(msg, 7, "7", description);
    assert msg + ": [" + "7" + "] " + description == msg + (": [" + "7" + "] ") + description;
    assert "message" + ": [7] " == "message: [7] ";
    assert "message 77" + ": [7] " == "message 77: [7] ";
  }

  lemma MessageEio(description: string)
    ensures SysErrorMessage("message 1", 5, description) == "message 1: [5] " + description
  {
    Suffix("message 1", 5, "5", description);
    assert "message 1" + ": [" + "5" + "] " + description == "message 1" + (": [" + "5" + "] ") + description;
    assert "message 1" + ": [5] " == "message 1: [5] ";
  }
}

/** The test program of the error module, block by block, as properties of
    the model: each block is a statement run from a context with no region
    open, and each lemma states what the block's assertions check. */
module ErrorTest {
  import opened ErrorTypes
  import opened Messages
  import opened TryStack
  import opened Regions
  import opened Propagation
  import opened TestTexts
  import opened Sequences

  /** The error types the test names besides the runtime's own. */
  datatype TestTypes = TestTypes(
    formatError: TypeRef, runtimeError: TypeRef, parent1: TypeRef, parent2: TypeRef, child: TypeRef)

  /** What the test relies on about the registry and the compiled-in sizes:
      its three local types, FormatError a non-fatal RuntimeError that is not
      an UnhandledError, code 25 a fatal type, code 122 a non-fatal one, code
      777 unregistered, UnknownError non-fatal, room for five nested regions
      and a buffer larger than every short message the test composes. */
  predicate TestRegistry(cfg: Config, tt: TestTypes)
  {
    ValidConfig(cfg)
    && var reg := cfg.reg;
    var k := cfg.known;
    tt.formatError < |reg| && tt.runtimeError < |reg|
    && tt.parent1 < |reg| && tt.parent2 < |reg| && tt.child < |reg|
    && reg[tt.parent1] == ErrorType(101, "TestParent1Error", false, tt.parent1)
    && reg[tt.parent2] == ErrorType(102, "TestParent2Error", false, tt.parent1)
    && reg[tt.child] == ErrorType(200, "TestChildError", false, tt.parent2)
    && !reg[tt.formatError].fatal && InstanceOf(reg, tt.formatError, tt.runtimeError)
    && !InstanceOf(reg, tt.formatError, k.unhandledError)
    && !reg[k.unknownError].fatal
    && reg[TypeFromCode(reg, 25, k.unknownError)].code == 25 && reg[TypeFromCode(reg, 25, k.unknownError)].fatal
    && reg[TypeFromCode(reg, 122, k.unknownError)].code == 122 && !reg[TypeFromCode(reg, 122, k.unknownError)].fatal
    && (forall i :: 0 <= i < |reg| ==> reg[i].code != 777)
    && cfg.tryMax >= 5 && cfg.bufferSize > 64
  }

  /** The part of TestRegistry the multiple-catches block relies on. */
  predicate CatchTypes(cfg: Config, tt: TestTypes)
  {
    ValidConfig(cfg) && cfg.tryMax >= 5
    && tt.formatError < |cfg.reg| && tt.runtimeError < |cfg.reg|
    && !cfg.reg[tt.formatError].fatal && InstanceOf(cfg.reg, tt.formatError, tt.runtimeError)
    && !InstanceOf(cfg.reg, tt.formatError, cfg.known.unhandledError)
  }

  /** One registry with these relations (the codes of the runtime's own
      types are illustrative). */
  function ExampleConfig(): Config
  {
    Config(
      [ ErrorType(25, "AssertError", true, 0),
        ErrorType(122, "RuntimeError", false, 1),
        ErrorType(29, "FormatError", false, 1),
        ErrorType(124, "UnhandledError", false, 1),
        ErrorType(125, "UnknownError", false, 1),
        ErrorType(101, "TestParent1Error", false, 5),
        ErrorType(102, "TestParent2Error", false, 5),
        ErrorType(200, "TestChildError", false, 6) ],
      Known(0, 4, 3), 20, 8192)
  }

  function ExampleTypes(): TestTypes
  {
    TestTypes(2, 1, 5, 6, 7)
  }

  /** The relations the test relies on can all hold at once. */
  lemma ExampleIsTestRegistry()
    ensures TestRegistry(ExampleConfig(), ExampleTypes())
  {
    var reg := ExampleConfig().reg;
    assert FindCode(reg, 25, 0) == 0;
    assert FindCode(reg, 122, 1) == 1;
    assert FindCode(reg, 122, 0) == 1;
    assert Extends(reg, 2, 1);
    assert !Extends(reg, 2, 3);
  }

  const TestFile := "test/src/module/common/errorTest.c"

  /** A site in testRun. */
  function At(line: int): Site
  {
    In(TestFile, line)
  }

  /** A site in testRun of the given file. The blocks whose proofs never
      look at the file name take it as a parameter. */
  function In(file: string, line: int): Site
  {
    Site(file, "testRun", line)
  }

  /** What the runtime shows before a block raises anything: the last
      handler call, the error and the message left by earlier blocks. */
  datatype Prior = Prior(last: Option<HandlerCall>, error: Error, message: string)

  function PriorOf(s: State): Prior
  {
    Prior(LastCall(s.handlerCalls), s.error, s.message)
  }

  /** What an Observe records at depth `depth` with the region in Try,
      before any error of the block. */
  function Before(p: Prior, point: string, depth: nat): Observation
  {
    Observation(point, depth, Try, p.last, p.error, p.message)
  }

  // ---------------------------------------------------------------------
  // errorTypeExtends

  /** TestParent1Error is a root and so extends itself; TestChildError
      extends both of its ancestors but not itself. */
  lemma Hierarchy(cfg: Config, tt: TestTypes)
    requires TestRegistry(cfg, tt)
    ensures Extends(cfg.reg, tt.parent1, tt.parent1)
    ensures Extends(cfg.reg, tt.child, tt.parent1)
    ensures Extends(cfg.reg, tt.child, tt.parent2)
    ensures !Extends(cfg.reg, tt.child, tt.child)
  {
    var reg := cfg.reg;
    ExtendsSelfIffRoot(reg, tt.parent1);
    ExtendsSelfIffRoot(reg, tt.child);
    ExtendsParent(reg, tt.child);
    ExtendsParent(reg, tt.parent2);
    ExtendsTransitive(reg, tt.child, tt.parent2, tt.parent1);
  }

  // ---------------------------------------------------------------------
  // TRY with no errors

  function NoErrors(): (r: Stmt)
    ensures forall cfg: Config :: StmtOk(cfg, r)
  {
    Region(At(90), Observe("try"), [CatchBlock(Any, Observe("catch"))], Observe("finally"))
  }

  /** The body runs at depth 1, the catch clause does not, FINALLY runs with
      the region in Try, and the block completes with no region open and no
      error. */
  lemma NoErrorRegion(cfg: Config, s: State, log: seq<Observation>)
    requires ValidConfig(cfg)
    requires Inv(cfg, s) && s.tryTotal == 0
    ensures var r := Eval(cfg, s, log, NoErrors());
      r.outcome == Normal && r.state.tryTotal == 0 && r.state.error == NoError
      && r.log == log + [Before(PriorOf(s), "try", 1), Before(PriorOf(s), "finally", 1)]
  {
    var stmt := NoErrors();
    var s1 := TryBegin(cfg, s, stmt.site).0;
    RegionWithoutError(cfg, s, log, stmt);
    assert Eval(cfg, s1, log, stmt.body) == Execution(s1, log + [Before(PriorOf(s), "try", 1)], Normal);
  }

  // ---------------------------------------------------------------------
  // A region whose body throws and whose one catch clause observes

  /** TRY_BEGIN() { thrower } CATCH_x() { observe } TRY_END(). */
  function Catching(site: Site, thrower: Stmt, clause: Clause): (r: Stmt)
    ensures forall cfg: Config :: StmtOk(cfg, thrower) && ClauseOk(cfg, clause) ==> StmtOk(cfg, r)
  {
    Region(site, thrower, [CatchBlock(clause, Observe("catch"))], Skip)
  }

  /** Opened when no region is open, such a block catches an error its body
      raises when the clause takes it: the handlers are called once, the
      clause observes the error and the message with the region in End, and
      the block completes with the error cleared. */
  lemma CaughtOnce(cfg: Config, s: State, log: seq<Observation>, site: Site, thrower: Stmt, clause: Clause)
    requires ValidConfig(cfg) && Inv(cfg, s) && s.tryTotal == 0
    requires StmtOk(cfg, thrower) && ClauseOk(cfg, clause)
    ensures var e := Eval(cfg, TryBegin(cfg, s, site).0, log, thrower);
      e.outcome == Raised && e.log == log && e.state.error.Error? && Matches(cfg.reg, clause, e.state.error.errorType) ==>
        var calls := e.state.handlerCalls + Calls(e.state.handlerList, 1, clause.Fatal?);
        Eval(cfg, s, log, Catching(site, thrower, clause))
        == Execution(
             e.state.(tryTotal := 0, tryList := e.state.tryList[1 := Frame(End, false)], error := NoError, handlerCalls := calls),
             log + [Observation("catch", 1, End, LastCall(calls), e.state.error, e.state.message)],
             Normal)
  {
    var stmt := Catching(site, thrower, clause);
    var s1 := TryBegin(cfg, s, site).0;
    var e := Eval(cfg, s1, log, thrower);
    EvalFrames(cfg, s1, log, thrower);
    if e.outcome == Raised && e.log == log && e.state.error.Error? && Matches(cfg.reg, clause, e.state.error.errorType) {
      CatchResolution(cfg, e.state, e.log, stmt);
      var a := Arrived(e.state, clause.Fatal?);
      var a1 := a.(tryList := a.tryList[1 := Frame(End, false)]);
      assert a1.tryList == e.state.tryList[1 := Frame(End, false)];
      assert EvalCatches(cfg, e.state, log, stmt, 0) == Execution(a1, log + [Snapshot(cfg, a1, "catch")], Normal);
      assert Eval(cfg, s, log, stmt) == EvalRegion(cfg, s, log, stmt);
    }
  }

  /** The observation a block of this shape leaves: one, in the catch clause,
      with the region in End; the block completes with no error. */
  predicate CaughtOnly(r: Execution, log: seq<Observation>)
  {
    r.outcome == Normal && r.state.error == NoError && |r.log| == |log| + 1 && r.log[..|log|] == log
    && r.log[|log|].point == "catch" && r.log[|log|].depth == 1 && r.log[|log|].phase == End
  }

  // ---------------------------------------------------------------------
  // errorInternalThrow()

  function InternalThrow(tt: TestTypes): Stmt
  {
    Catching(At(117), Throw(tt.formatError, Site("file77", "function88", 99), Literal("message100")), Any)
  }

  /** CATCH_ANY takes the FormatError and sees every field of the throw. */
  lemma InternalThrowCaught(cfg: Config, tt: TestTypes, s: State, log: seq<Observation>)
    requires TestRegistry(cfg, tt) && Inv(cfg, s) && s.tryTotal == 0
    ensures StmtOk(cfg, InternalThrow(tt))
    ensures var r := Eval(cfg, s, log, InternalThrow(tt));
      CaughtOnly(r, log)
      && r.log[|log|].error == Error(tt.formatError, Site("file77", "function88", 99))
      && r.log[|log|].message == "message100"
  {
    CaughtOnce(cfg, s, log, At(117), Throw(tt.formatError, Site("file77", "function88", 99), Literal("message100")), Any);
  }

  // ---------------------------------------------------------------------
  // TRY with multiple catches

  /** A message longer than the buffer: its size plus 128 'A's. */
  function BigMessage(cfg: Config): string
  {
    seq(cfg.bufferSize + 128, _ => 'A')
  }

  /** The innermost region: FINALLY throws AssertError with the big message. */
  function Depth5(cfg: Config, file: string): (r: Stmt)
    requires ValidConfig(cfg)
    ensures StmtOk(cfg, r)
  {
    var thrower := Throw(cfg.known.assertError, In(file, 175), Literal(BigMessage(cfg)));
    assert StmtOk(cfg, thrower);
    var final := Seq(Observe("finally 5"), thrower);
    assert StmtOk(cfg, final);
    Region(In(file, 163), Observe("depth 5"), [], final)
  }

  /** Depth 4 around `inner`: CATCH_ANY, which a fatal error passes. */
  function Depth4(cfg: Config, file: string, inner: Stmt): (r: Stmt)
    requires StmtOk(cfg, inner)
    ensures StmtOk(cfg, r)
  {
    var body := Seq(Observe("depth 4"), inner);
    assert StmtOk(cfg, body);
    Region(In(file, 159), body, [CatchBlock(Any, Observe("catch 4"))], Skip)
  }

  /** Depth 3 around `inner`: CATCH_FATAL, which throws FormatError with the
      current message; FINALLY still runs. */
  function Depth3(cfg: Config, tt: TestTypes, file: string, inner: Stmt): (r: Stmt)
    requires CatchTypes(cfg, tt) && StmtOk(cfg, inner)
    ensures StmtOk(cfg, r)
  {
    var body := Seq(Observe("depth 3"), inner);
    var thrower := Throw(tt.formatError, In(file, 192), CurrentMessage);
    assert StmtOk(cfg, thrower);
    var handler := Seq(Observe("catch 3"), thrower);
    assert StmtOk(cfg, body) && StmtOk(cfg, handler);
    Region(In(file, 155), body, [CatchBlock(Fatal, handler)], Observe("finally 3"))
  }

  /** Depth 2 around `inner`: CATCH_ANY, which rethrows. */
  function Depth2(cfg: Config, file: string, inner: Stmt): (r: Stmt)
    requires StmtOk(cfg, inner)
    ensures StmtOk(cfg, r)
  {
    var body := Seq(Observe("depth 2"), inner);
    var handler := Seq(Observe("catch 2"), Rethrow);
    assert StmtOk(cfg, Rethrow);
    assert StmtOk(cfg, body);
    assert StmtOk(cfg, handler);
    Region(In(file, 151), body, [CatchBlock(Any, handler)], Skip)
  }

  /** Depth 1 around `inner`: CATCH(UnhandledError), which FormatError
      passes, then CATCH(RuntimeError). */
  function Depth1(cfg: Config, tt: TestTypes, file: string, inner: Stmt): (r: Stmt)
    requires CatchTypes(cfg, tt) && StmtOk(cfg, inner)
    ensures StmtOk(cfg, r)
  {
    var body := Seq(Observe("depth 1"), inner);
    assert StmtOk(cfg, body);
    Region(In(file, 147), body,
      [CatchBlock(Exact(cfg.known.unhandledError), Observe("catch unhandled")),
       CatchBlock(Exact(tt.runtimeError), Observe("catch 1"))],
      Skip)
  }

  /** The five nested regions of the block. */
  function Nested(cfg: Config, tt: TestTypes, file: string): (r: Stmt)
    requires CatchTypes(cfg, tt)
    ensures StmtOk(cfg, r)
  {
    Depth1(cfg, tt, file, Depth2(cfg, file, Depth3(cfg, tt, file, Depth4(cfg, file, Depth5(cfg, file)))))
  }

  function MultipleCatches(cfg: Config, tt: TestTypes, h: Handler): (r: Stmt)
    requires CatchTypes(cfg, tt)
    ensures StmtOk(cfg, r)
  {
    Seq(SetHandlers([h]), Nested(cfg, tt, TestFile))
  }

  /** What the catch clauses and FINALLY blocks see once the AssertError has
      arrived: the last handler call, the error and the big message cut to
      the buffer. */
  function After(cfg: Config, point: string, depth: nat, call: HandlerCall, e: Error): Observation
    requires cfg.bufferSize >= 1
  {
    Observation(point, depth, End, Some(call), e, Truncate(BigMessage(cfg), cfg.bufferSize))
  }

  /** The observations of the multiple-catches block from depth 5 inwards,
      ..., from depth 1 inwards: each body before any error, then FINALLY at
      depth 5, then each clause that takes the error with the handler call of
      its own depth, and FINALLY at depth 3 after the throw inside
      CATCH_FATAL. CATCH_ANY at depth 4 and CATCH(UnhandledError) are not
      among them. */
  function Log5(p: Prior): seq<Observation>
  {
    [Before(p, "depth 5", 5), Before(p, "finally 5", 5)]
  }

  function Log4(p: Prior): seq<Observation>
  {
    [Before(p, "depth 4", 4)] + Log5(p)
  }

  function Log3(cfg: Config, tt: TestTypes, file: string, p: Prior, h: Handler): seq<Observation>
    requires cfg.bufferSize >= 1
  {
    [Before(p, "depth 3", 3)] + Log4(p)
    + [After(cfg, "catch 3", 3, HandlerCall(h, 3, true), Error(cfg.known.assertError, In(file, 175)))]
    + [After(cfg, "finally 3", 3, HandlerCall(h, 3, true), Error(tt.formatError, In(file, 192)))]
  }

  function Log2(cfg: Config, tt: TestTypes, file: string, p: Prior, h: Handler): seq<Observation>
    requires cfg.bufferSize >= 1
  {
    [Before(p, "depth 2", 2)] + Log3(cfg, tt, file, p, h)
    + [After(cfg, "catch 2", 2, HandlerCall(h, 2, false), Error(tt.formatError, In(file, 192)))]
  }

  function Log1(cfg: Config, tt: TestTypes, file: string, p: Prior, h: Handler): seq<Observation>
    requires cfg.bufferSize >= 1
  {
    [Before(p, "depth 1", 1)] + Log2(cfg, tt, file, p, h)
    + [After(cfg, "catch 1", 1, HandlerCall(h, 1, false), Error(tt.formatError, In(file, 192)))]
  }

  /** The calls the handler has received once the error has reached the
      catch clauses of the region at `depth`: one per region from depth 4
      (depth 5 has none) outwards, fatal only at CATCH_FATAL. */
  function BlockCalls(h: Handler, depth: nat): (r: seq<HandlerCall>)
    requires 1 <= depth <= 4
    ensures |r| == 5 - depth && r[|r| - 1] == HandlerCall(h, depth, depth == 3)
    decreases 4 - depth
  {
    if depth == 4 then [HandlerCall(h, 4, false)]
    else BlockCalls(h, depth + 1) + [HandlerCall(h, depth, depth == 3)]
  }

  /** How a run of part of the block ends: its log, outcome, error, message,
      handler list and handler calls. */
  predicate Ends(
    r: Execution, log: seq<Observation>, outcome: Outcome, error: Error, message: string,
    handlers: seq<Handler>, calls: seq<HandlerCall>)
  {
    r.log == log && r.outcome == outcome && r.state.error == error && r.state.message == message
    && r.state.handlerList == handlers && r.state.handlerCalls == calls
  }

  /** An observation right after a region is entered sees the new depth in
      Try and what the block saw before. */
  lemma EnteredSnapshot(cfg: Config, s: State, site: Site, point: string)
    requires ValidConfig(cfg) && Inv(cfg, s) && s.tryTotal < cfg.tryMax
    ensures Snapshot(cfg, TryBegin(cfg, s, site).0, point) == Before(PriorOf(s), point, s.tryTotal + 1)
  {
  }

  /** Depth 5: the body observes, FINALLY observes the region still in Try
      and throws the big message. */
  lemma Level5(cfg: Config, file: string, s: State, log: seq<Observation>)
    requires ValidConfig(cfg) && cfg.tryMax >= 5 && Inv(cfg, s) && s.tryTotal == 4
    ensures Ends(Eval(cfg, s, log, Depth5(cfg, file)), log + Log5(PriorOf(s)), Raised,
                 Error(cfg.known.assertError, In(file, 175)), Truncate(BigMessage(cfg), cfg.bufferSize),
                 s.handlerList, s.handlerCalls)
  {
    var stmt := Depth5(cfg, file);
    var p := PriorOf(s);
    var s1 := TryBegin(cfg, s, In(file, 163)).0;
    assert PriorOf(s1) == p;
    assert Eval(cfg, s, log, stmt) == EvalRegion(cfg, s, log, stmt);
    var log1 := log + [Before(p, "depth 5", 5)];
    assert Eval(cfg, s1, log, stmt.body) == Execution(s1, log1, Normal);
    var s2 := Raise(cfg, s1, cfg.known.assertError, In(file, 175), BigMessage(cfg));
    assert Eval(cfg, s1, log1, stmt.final) == Execution(s2, log1 + [Before(p, "finally 5", 5)], Raised);
    TryEndKeeps(cfg, s2);
  }

  /** Depth 4: CATCH_ANY does not take the fatal error, which moves on with
      one handler call made. */
  lemma Step4(cfg: Config, file: string, s: State, log: seq<Observation>, h: Handler, inner: Stmt)
    requires ValidConfig(cfg) && cfg.tryMax >= 5 && Inv(cfg, s) && s.tryTotal == 3 && s.handlerList == [h]
    requires StmtOk(cfg, inner)
    requires var log1 := log + [Before(PriorOf(s), "depth 4", 4)];
      Ends(Eval(cfg, TryBegin(cfg, s, In(file, 159)).0, log1, inner), log1 + Log5(PriorOf(s)), Raised,
           Error(cfg.known.assertError, In(file, 175)), Truncate(BigMessage(cfg), cfg.bufferSize), [h], s.handlerCalls)
    ensures Ends(Eval(cfg, s, log, Depth4(cfg, file, inner)), log + Log4(PriorOf(s)), Raised,
                 Error(cfg.known.assertError, In(file, 175)), Truncate(BigMessage(cfg), cfg.bufferSize),
                 [h], s.handlerCalls + BlockCalls(h, 4))
  {
    var stmt := Depth4(cfg, file, inner);
    var p := PriorOf(s);
    var s1 := TryBegin(cfg, s, In(file, 159)).0;
    assert Eval(cfg, s, log, stmt) == EvalRegion(cfg, s, log, stmt);
    var log1 := log + [Before(p, "depth 4", 4)];
    EnteredSnapshot(cfg, s, In(file, 159), "depth 4");
    RaisedBody(cfg, s, log, stmt);
    var r := Eval(cfg, s1, log1, inner);
    CatchResolution(cfg, r.state, r.log, stmt);
    assert FirstMatch(cfg.reg, stmt.catches, cfg.known.assertError, 0) == 1;
    assert Calls([h], 4, false) == [HandlerCall(h, 4, false)];
    TryEndKeeps(cfg, Arrived(r.state, false));
    Assoc3(log, [Before(p, "depth 4", 4)], Log5(p));
  }

  /** CATCH_FATAL at depth 3 takes the AssertError: the handler is called
      with (3, fatal), the clause sees the error, and its throw of FormatError
      with the same message leaves the region in End with an uncaught error. */
  lemma Catch3(cfg: Config, tt: TestTypes, file: string, st: State, lg: seq<Observation>, h: Handler, inner: Stmt)
    requires CatchTypes(cfg, tt) && Inv(cfg, st) && st.tryTotal == 3 && st.tryList[3] == Frame(Try, true)
    requires st.error == Error(cfg.known.assertError, In(file, 175)) && st.handlerList == [h] && StmtOk(cfg, inner)
    ensures var call := HandlerCall(h, 3, true);
      EvalCatches(cfg, st, lg, Depth3(cfg, tt, file, inner), 0)
      == Execution(
           st.(handlerCalls := st.handlerCalls + [call], tryList := st.tryList[3 := Frame(End, true)],
               error := Error(tt.formatError, In(file, 192))),
           lg + [Observation("catch 3", 3, End, Some(call), st.error, st.message)], Raised)
  {
    var stmt := Depth3(cfg, tt, file, inner);
    CatchResolution(cfg, st, lg, stmt);
    var a := Arrived(st, true);
    var a1 := a.(tryList := a.tryList[3 := Frame(End, false)]);
    assert Calls([h], 3, true) == [HandlerCall(h, 3, true)];
    assert a1.tryList[3] == Frame(End, false);
    var o := Snapshot(cfg, a1, "catch 3");
    assert Eval(cfg, a1, lg, stmt.catches[0].body.first) == Execution(a1, lg + [o], Normal);
  }

  /** Depth 3: the handler call and the throw inside CATCH_FATAL, then FINALLY
      sees the FormatError, which moves on with the same message. */
  lemma Step3(cfg: Config, tt: TestTypes, file: string, s: State, log: seq<Observation>, h: Handler, inner: Stmt)
    requires CatchTypes(cfg, tt) && Inv(cfg, s) && s.tryTotal == 2 && s.handlerList == [h]
    requires StmtOk(cfg, inner)
    requires var log1 := log + [Before(PriorOf(s), "depth 3", 3)];
      Ends(Eval(cfg, TryBegin(cfg, s, In(file, 155)).0, log1, inner), log1 + Log4(PriorOf(s)), Raised,
           Error(cfg.known.assertError, In(file, 175)), Truncate(BigMessage(cfg), cfg.bufferSize),
           [h], s.handlerCalls + BlockCalls(h, 4))
    ensures Ends(Eval(cfg, s, log, Depth3(cfg, tt, file, inner)), log + Log3(cfg, tt, file, PriorOf(s), h), Raised,
                 Error(tt.formatError, In(file, 192)), Truncate(BigMessage(cfg), cfg.bufferSize),
                 [h], s.handlerCalls + BlockCalls(h, 3))
  {
    var stmt := Depth3(cfg, tt, file, inner);
    var p := PriorOf(s);
    var s1 := TryBegin(cfg, s, In(file, 155)).0;
    assert Eval(cfg, s, log, stmt) == EvalRegion(cfg, s, log, stmt);
    var log1 := log + [Before(p, "depth 3", 3)];
    EnteredSnapshot(cfg, s, In(file, 155), "depth 3");
    RaisedBody(cfg, s, log, stmt);
    var r := Eval(cfg, s1, log1, inner);
    Catch3(cfg, tt, file, r.state, r.log, h, inner);
    var rc := EvalCatches(cfg, r.state, r.log, stmt, 0);
    var c3 := After(cfg, "catch 3", 3, HandlerCall(h, 3, true), Error(cfg.known.assertError, In(file, 175)));
    var f3 := After(cfg, "finally 3", 3, HandlerCall(h, 3, true), Error(tt.formatError, In(file, 192)));
    assert rc.log == r.log + [c3];
    assert Eval(cfg, rc.state, rc.log, stmt.final) == Execution(rc.state, rc.log + [f3], Normal);
    TryEndKeeps(cfg, rc.state);
    Assoc5(log, [Before(p, "depth 3", 3)], Log4(p), [c3], [f3]);
  }

  /** CATCH_ANY at depth 2 takes the FormatError: the handler is called with
      (2, not fatal), the clause sees the error, and RETHROW leaves the
      region in End with the error uncaught. */
  lemma Catch2(cfg: Config, file: string, st: State, lg: seq<Observation>, h: Handler, inner: Stmt, e: TypeRef)
    requires ValidConfig(cfg) && Inv(cfg, st) && st.tryTotal == 2 && st.tryList[2] == Frame(Try, true)
    requires e < |cfg.reg| && !cfg.reg[e].fatal
    requires st.error == Error(e, In(file, 192)) && st.handlerList == [h] && StmtOk(cfg, inner)
    ensures var call := HandlerCall(h, 2, false);
      EvalCatches(cfg, st, lg, Depth2(cfg, file, inner), 0)
      == Execution(
           st.(handlerCalls := st.handlerCalls + [call], tryList := st.tryList[2 := Frame(End, true)]),
           lg + [Observation("catch 2", 2, End, Some(call), st.error, st.message)], Raised)
  {
    var stmt := Depth2(cfg, file, inner);
    CatchResolution(cfg, st, lg, stmt);
    var a := Arrived(st, false);
    var a1 := a.(tryList := a.tryList[2 := Frame(End, false)]);
    assert Calls([h], 2, false) == [HandlerCall(h, 2, false)];
    assert a1.tryList[2] == Frame(End, false);
    var o := Snapshot(cfg, a1, "catch 2");
    assert Eval(cfg, a1, lg, stmt.catches[0].body.first) == Execution(a1, lg + [o], Normal);
  }

  /** Depth 2: CATCH_ANY sees the FormatError and RETHROW moves it on. */
  lemma Step2(cfg: Config, tt: TestTypes, file: string, s: State, log: seq<Observation>, h: Handler, inner: Stmt)
    requires CatchTypes(cfg, tt) && Inv(cfg, s) && s.tryTotal == 1 && s.handlerList == [h]
    requires StmtOk(cfg, inner)
    requires var log1 := log + [Before(PriorOf(s), "depth 2", 2)];
      Ends(Eval(cfg, TryBegin(cfg, s, In(file, 151)).0, log1, inner), log1 + Log3(cfg, tt, file, PriorOf(s), h), Raised,
           Error(tt.formatError, In(file, 192)), Truncate(BigMessage(cfg), cfg.bufferSize),
           [h], s.handlerCalls + BlockCalls(h, 3))
    ensures Ends(Eval(cfg, s, log, Depth2(cfg, file, inner)), log + Log2(cfg, tt, file, PriorOf(s), h), Raised,
                 Error(tt.formatError, In(file, 192)), Truncate(BigMessage(cfg), cfg.bufferSize),
                 [h], s.handlerCalls + BlockCalls(h, 2))
  {
    var stmt := Depth2(cfg, file, inner);
    var p := PriorOf(s);
    var s1 := TryBegin(cfg, s, In(file, 151)).0;
    assert Eval(cfg, s, log, stmt) == EvalRegion(cfg, s, log, stmt);
    var log1 := log + [Before(p, "depth 2", 2)];
    EnteredSnapshot(cfg, s, In(file, 151), "depth 2");
    RaisedBody(cfg, s, log, stmt);
    var r := Eval(cfg, s1, log1, inner);
    Catch2(cfg, file, r.state, r.log, h, inner, tt.formatError);
    var rc := EvalCatches(cfg, r.state, r.log, stmt, 0);
    var c2 := After(cfg, "catch 2", 2, HandlerCall(h, 2, false), Error(tt.formatError, In(file, 192)));
    assert rc.log == r.log + [c2];
    TryEndKeeps(cfg, rc.state);
    Assoc4(log, [Before(p, "depth 2", 2)], Log3(cfg, tt, file, p, h), [c2]);
  }

  /** CATCH(UnhandledError) does not take the FormatError and
      CATCH(RuntimeError) does: the handler is called with (1, not fatal) and
      the clause sees the region in End. */
  lemma Catch1(cfg: Config, tt: TestTypes, file: string, st: State, lg: seq<Observation>, h: Handler, inner: Stmt)
    requires CatchTypes(cfg, tt) && Inv(cfg, st) && st.tryTotal == 1 && st.tryList[1] == Frame(Try, true)
    requires st.error == Error(tt.formatError, In(file, 192)) && st.handlerList == [h] && StmtOk(cfg, inner)
    ensures var call := HandlerCall(h, 1, false);
      var a1 := st.(handlerCalls := st.handlerCalls + [call], tryList := st.tryList[1 := Frame(End, false)]);
      EvalCatches(cfg, st, lg, Depth1(cfg, tt, file, inner), 0)
      == Execution(a1, lg + [Observation("catch 1", 1, End, Some(call), st.error, st.message)], Normal)
  {
    var stmt := Depth1(cfg, tt, file, inner);
    CatchResolution(cfg, st, lg, stmt);
    assert FirstMatch(cfg.reg, stmt.catches, tt.formatError, 0) == 1;
    var a := Arrived(st, false);
    var a1 := a.(tryList := a.tryList[1 := Frame(End, false)]);
    assert Calls([h], 1, false) == [HandlerCall(h, 1, false)];
    assert a1.tryList[1] == Frame(End, false);
  }

  /** Depth 1: CATCH(RuntimeError) takes the FormatError and TRY_END clears
      it. */
  lemma Step1(cfg: Config, tt: TestTypes, file: string, s: State, log: seq<Observation>, h: Handler, inner: Stmt)
    requires CatchTypes(cfg, tt) && Inv(cfg, s) && s.tryTotal == 0 && s.handlerList == [h]
    requires StmtOk(cfg, inner)
    requires var log1 := log + [Before(PriorOf(s), "depth 1", 1)];
      Ends(Eval(cfg, TryBegin(cfg, s, In(file, 147)).0, log1, inner), log1 + Log2(cfg, tt, file, PriorOf(s), h), Raised,
           Error(tt.formatError, In(file, 192)), Truncate(BigMessage(cfg), cfg.bufferSize),
           [h], s.handlerCalls + BlockCalls(h, 2))
    ensures Ends(Eval(cfg, s, log, Depth1(cfg, tt, file, inner)), log + Log1(cfg, tt, file, PriorOf(s), h), Normal,
                 NoError, Truncate(BigMessage(cfg), cfg.bufferSize), [h], s.handlerCalls + BlockCalls(h, 1))
  {
    var stmt := Depth1(cfg, tt, file, inner);
    var p := PriorOf(s);
    var s1 := TryBegin(cfg, s, In(file, 147)).0;
    assert Eval(cfg, s, log, stmt) == EvalRegion(cfg, s, log, stmt);
    var log1 := log + [Before(p, "depth 1", 1)];
    EnteredSnapshot(cfg, s, In(file, 147), "depth 1");
    RaisedBody(cfg, s, log, stmt);
    var r := Eval(cfg, s1, log1, inner);
    Catch1(cfg, tt, file, r.state, r.log, h, inner);
    var rc := EvalCatches(cfg, r.state, r.log, stmt, 0);
    var c1 := After(cfg, "catch 1", 1, HandlerCall(h, 1, false), Error(tt.formatError, In(file, 192)));
    assert rc.log == r.log + [c1];
    Assoc4(log, [Before(p, "depth 1", 1)], Log2(cfg, tt, file, p, h), [c1]);
  }

  /** The regions from depth 4 inwards, opened at depth 3. */
  lemma Level4(cfg: Config, file: string, s: State, log: seq<Observation>, h: Handler)
    requires ValidConfig(cfg) && cfg.tryMax >= 5 && Inv(cfg, s) && s.tryTotal == 3 && s.handlerList == [h]
    ensures Ends(Eval(cfg, s, log, Depth4(cfg, file, Depth5(cfg, file))), log + Log4(PriorOf(s)), Raised,
                 Error(cfg.known.assertError, In(file, 175)), Truncate(BigMessage(cfg), cfg.bufferSize),
                 [h], s.handlerCalls + BlockCalls(h, 4))
  {
    var s1 := TryBegin(cfg, s, In(file, 159)).0;
    assert PriorOf(s1) == PriorOf(s);
    Level5(cfg, file, s1, log + [Before(PriorOf(s), "depth 4", 4)]);
    Step4(cfg, file, s, log, h, Depth5(cfg, file));
  }

  lemma Level3(cfg: Config, tt: TestTypes, file: string, s: State, log: seq<Observation>, h: Handler)
    requires CatchTypes(cfg, tt) && Inv(cfg, s) && s.tryTotal == 2 && s.handlerList == [h]
    ensures Ends(Eval(cfg, s, log, Depth3(cfg, tt, file, Depth4(cfg, file, Depth5(cfg, file)))),
                 log + Log3(cfg, tt, file, PriorOf(s), h), Raised,
                 Error(tt.formatError, In(file, 192)), Truncate(BigMessage(cfg), cfg.bufferSize),
                 [h], s.handlerCalls + BlockCalls(h, 3))
  {
    var s1 := TryBegin(cfg, s, In(file, 155)).0;
    assert PriorOf(s1) == PriorOf(s);
    Level4(cfg, file, s1, log + [Before(PriorOf(s), "depth 3", 3)], h);
    Step3(cfg, tt, file, s, log, h, Depth4(cfg, file, Depth5(cfg, file)));
  }

  lemma Level2(cfg: Config, tt: TestTypes, file: string, s: State, log: seq<Observation>, h: Handler)
    requires CatchTypes(cfg, tt) && Inv(cfg, s) && s.tryTotal == 1 && s.handlerList == [h]
    ensures Ends(Eval(cfg, s, log, Depth2(cfg, file, Depth3(cfg, tt, file, Depth4(cfg, file, Depth5(cfg, file))))),
                 log + Log2(cfg, tt, file, PriorOf(s), h), Raised,
                 Error(tt.formatError, In(file, 192)), Truncate(BigMessage(cfg), cfg.bufferSize),
                 [h], s.handlerCalls + BlockCalls(h, 2))
  {
    var s1 := TryBegin(cfg, s, In(file, 151)).0;
    assert PriorOf(s1) == PriorOf(s);
    Level3(cfg, tt, file, s1, log + [Before(PriorOf(s), "depth 2", 2)], h);
    Step2(cfg, tt, file, s, log, h, Depth3(cfg, tt, file, Depth4(cfg, file, Depth5(cfg, file))));
  }

  lemma Level1(cfg: Config, tt: TestTypes, file: string, s: State, log: seq<Observation>, h: Handler)
    requires CatchTypes(cfg, tt) && Inv(cfg, s) && s.tryTotal == 0 && s.handlerList == [h]
    ensures Ends(Eval(cfg, s, log, Nested(cfg, tt, file)), log + Log1(cfg, tt, file, PriorOf(s), h), Normal,
                 NoError, Truncate(BigMessage(cfg), cfg.bufferSize), [h], s.handlerCalls + BlockCalls(h, 1))
  {
    var s1 := TryBegin(cfg, s, In(file, 147)).0;
    assert PriorOf(s1) == PriorOf(s);
    Level2(cfg, tt, file, s1, log + [Before(PriorOf(s), "depth 1", 1)], h);
    Step1(cfg, tt, file, s, log, h, Depth2(cfg, file, Depth3(cfg, tt, file, Depth4(cfg, file, Depth5(cfg, file)))));
  }

  /** The block shows ten observations; the last is CATCH(RuntimeError),
      which sees the big message cut to one less than the buffer size. */
  lemma Log1Shape(cfg: Config, tt: TestTypes, file: string, p: Prior, h: Handler)
    requires cfg.bufferSize >= 1
    ensures var l := Log1(cfg, tt, file, p, h);
      |l| == 10 && l[9].point == "catch 1" && l[9].depth == 1 && l[9].phase == End
      && l[9].lastCall == Some(HandlerCall(h, 1, false)) && |l[9].message| == cfg.bufferSize - 1
  {
  }

  /** The whole block: errorHandlerSet replaces the handler list, the error
      passes through the five nested regions as Log1 lists, the handler is
      called once per region the error reaches, and the block ends at depth
      0 with the error cleared. */
  lemma MultipleCatchesRun(cfg: Config, tt: TestTypes, s: State, log: seq<Observation>, h: Handler)
    requires CatchTypes(cfg, tt) && Inv(cfg, s) && s.tryTotal == 0
    ensures var r := Eval(cfg, s, log, MultipleCatches(cfg, tt, h));
      Ends(r, log + Log1(cfg, tt, TestFile, PriorOf(s), h), Normal, NoError, Truncate(BigMessage(cfg), cfg.bufferSize),
           [h], s.handlerCalls + BlockCalls(h, 1))
      && r.state.tryTotal == 0
  {
    var s0 := HandlerSet(s, [h]);
    assert PriorOf(s0) == PriorOf(s);
    Level1(cfg, tt, TestFile, s0, log, h);
    assert Eval(cfg, s, log, SetHandlers([h])) == Execution(s0, log, Normal);
  }

  // ---------------------------------------------------------------------
  // TRY nested too deeply

  /** Where testTryRecurse opens its region. */
  function RecurseSite(file: string): Site
  {
    Site(file, "testTryRecurse", 29)
  }

  /** The recursive function of the test: its body observes, its
      CATCH(UnhandledError) observes "recurse catch", its FINALLY "recurse
      finally". */
  function TestTryRecurse(cfg: Config, file: string): (r: Stmt)
    requires ValidConfig(cfg)
    ensures StmtOk(cfg, r) && IsRegion(r)
  {
    Recurse(RecurseSite(file), "recurse", cfg.known.unhandledError, "recurse catch", "recurse finally")
  }

  /** A region that calls the recursive function and catches fatal errors. */
  function TooDeep(cfg: Config, file: string): (r: Stmt)
    requires ValidConfig(cfg)
    ensures StmtOk(cfg, r)
  {
    var body := Seq(Observe("try"), TestTryRecurse(cfg, file));
    assert StmtOk(cfg, body);
    Region(In(file, 242), body, [CatchBlock(Fatal, Observe("catch"))], Observe("finally"))
  }

  /** The region runs the recursion as GuardRun describes it from depth 1;
      CATCH_FATAL then takes the guard's AssertError, FINALLY runs, and
      TRY_END clears the error. */
  lemma TooDeepRun(cfg: Config, file: string, s: State, log: seq<Observation>)
    requires ValidConfig(cfg) && Inv(cfg, s) && s.tryTotal == 0
    ensures var r := Eval(cfg, s, log, TooDeep(cfg, file));
      var s1 := TryBegin(cfg, s, In(file, 242)).0;
      var g := GuardRun(cfg, s1, log + [Snapshot(cfg, s1, "try")], RecurseSite(file), "recurse", "recurse finally");
      r.outcome == Normal && r.state.tryTotal == 0 && r.state.error == NoError
      && |r.log| == |g.log| + 2 && r.log[..|g.log|] == g.log
      && r.log[|g.log|].point == "catch" && r.log[|g.log|].depth == 1 && r.log[|g.log|].phase == End
      && r.log[|g.log|].error == Error(cfg.known.assertError, RecurseSite(file))
      && r.log[|g.log|].message == Truncate(TooManyTries, cfg.bufferSize)
      && r.log[|g.log| + 1].point == "finally"
  {
    var stmt := TooDeep(cfg, file);
    var s1 := TryBegin(cfg, s, In(file, 242)).0;
    var log1 := log + [Snapshot(cfg, s1, "try")];
    var rec := TestTryRecurse(cfg, file);
    RecurseIsGuardRun(cfg, s1, log1, RecurseSite(file), "recurse", cfg.known.unhandledError, "recurse catch", "recurse finally");
    var g := GuardRun(cfg, s1, log1, RecurseSite(file), "recurse", "recurse finally");
    assert Eval(cfg, s, log, stmt) == EvalRegion(cfg, s, log, stmt);
    RaisedBody(cfg, s, log, stmt);
    CatchResolution(cfg, g.state, g.log, stmt);
    var a := Arrived(g.state, true);
    var a1 := a.(tryList := a.tryList[1 := Frame(End, false)]);
    var c := Snapshot(cfg, a1, "catch");
    assert EvalCatches(cfg, g.state, g.log, stmt, 0) == Execution(a1, g.log + [c], Normal);
    var f := Snapshot(cfg, a1, "finally");
    assert Eval(cfg, a1, g.log + [c], stmt.final) == Execution(a1, g.log + [c, f], Normal);
  }

  /** The observations of the too-deep block, laid out as the test checks
      them, whatever produced them. */
  predicate TooDeepLayout(cfg: Config, log: seq<Observation>, l: seq<Observation>, n: nat)
  {
    |l| == |log| + 2 * n + 3 && l[..|log|] == log
    && l[|log|].point == "try"
    && (forall k :: |log| < k <= |log| + n ==> l[k].point == "recurse" && l[k].depth == k - |log| + 1)
    && (forall k :: |log| + n < k <= |log| + 2 * n ==> l[k].point == "recurse finally")
    && (forall k :: |log| <= k < |l| ==> l[k].point != "recurse catch")
    && l[|log| + 2 * n + 1].point == "catch"
    && l[|log| + 2 * n + 1].error == Error(cfg.known.assertError, Site(TestFile, "testTryRecurse", 29))
    && l[|log| + 2 * n + 1].message == TooManyTries
    && l[|log| + 2 * n + 2].point == "finally"
  }

  /** The recursion's log followed by the catch clause and FINALLY has that
      layout. */
  lemma LayoutOfRun(
    cfg: Config, log: seq<Observation>, t: Observation, g: seq<Observation>, l: seq<Observation>, n: nat)
    requires t.point == "try"
    requires |g| == |log + [t]| + 2 * n && g[..|log + [t]|] == log + [t]
    requires forall k :: |log + [t]| <= k < |log + [t]| + n ==>
      g[k].point == "recurse" && g[k].depth == 1 + 1 + (k - |log + [t]|)
    requires forall k :: |log + [t]| + n <= k < |g| ==> g[k].point == "recurse finally"
    requires |l| == |g| + 2 && l[..|g|] == g
    requires l[|g|].point == "catch" && l[|g|].error == Error(cfg.known.assertError, Site(TestFile, "testTryRecurse", 29))
    requires l[|g|].message == TooManyTries && l[|g| + 1].point == "finally"
    ensures TooDeepLayout(cfg, log, l, n)
  {
    forall k | 0 <= k < |g|
      ensures l[k] == g[k]
    {
      assert l[k] == l[..|g|][k];
    }
    forall k | 0 <= k < |log + [t]|
      ensures g[k] == (log + [t])[k]
    {
      assert g[k] == g[..|log + [t]|][k];
    }
    assert l[..|log|] == log;
    assert |"recurse catch"| == 13;
    forall k | |log| <= k < |l|
      ensures l[k].point != "recurse catch"
    {
      if k < |log| + 1 + n {
      } else if k < |g| {
        assert l[k] == g[k];
      }
    }
  }

  /** A buffer longer than the guard's message keeps all of it. */
  lemma GuardMessageKept(capacity: nat)
    requires capacity > |TooManyTries|
    ensures Truncate(TooManyTries, capacity) == TooManyTries
  {
  }

  /** What the test checks of the too-deep block: the body of the outer
      region is entered, the recursive function is entered ERROR_TRY_MAX - 1
      times, the k-th time one level deeper than it has been entered before,
      each of its FINALLY blocks runs and its CATCH(UnhandledError) never
      does, CATCH_FATAL sees the AssertError thrown at the guard in
      testTryRecurse with the guard's message, and the block ends with no
      region open and no error. */
  lemma TooDeepRecursion(cfg: Config, s: State, log: seq<Observation>)
    requires ValidConfig(cfg) && Inv(cfg, s) && s.tryTotal == 0 && cfg.bufferSize > |TooManyTries|
    ensures var r := Eval(cfg, s, log, TooDeep(cfg, TestFile));
      r.outcome == Normal && r.state.tryTotal == 0 && r.state.error == NoError
      && TooDeepLayout(cfg, log, r.log, cfg.tryMax - 1)
  {
    var file := TestFile;
    var s1 := TryBegin(cfg, s, In(file, 242)).0;
    var log1 := log + [Snapshot(cfg, s1, "try")];
    TooDeepRun(cfg, file, s, log);
    GuardRunEnters(cfg, s1, log1, RecurseSite(file), "recurse", "recurse finally");
    GuardRunFinals(cfg, s1, log1, RecurseSite(file), "recurse", "recurse finally");
    GuardRunLength(cfg, s1, log1, RecurseSite(file), "recurse", "recurse finally");
    var g := GuardRun(cfg, s1, log1, RecurseSite(file), "recurse", "recurse finally");
    GuardMessageKept(cfg.bufferSize);
    LayoutOfRun(cfg, log, Snapshot(cfg, s1, "try"), g.log, Eval(cfg, s, log, TooDeep(cfg, file)).log, cfg.tryMax - 1);
  }

  // ---------------------------------------------------------------------
  // THROW_CODE() and THROW_CODE_FMT()

  function CodeThrow(code: int, line: int, text: Text, clause: Clause): Stmt
  {
    Catching(At(line - 2), ThrowCode(code, At(line), text), clause)
  }

  /** Code 25 names a fatal type, which CATCH_FATAL takes. */
  lemma ThrowCodeFatal(cfg: Config, tt: TestTypes, s: State, log: seq<Observation>)
    requires TestRegistry(cfg, tt) && Inv(cfg, s) && s.tryTotal == 0
    ensures StmtOk(cfg, CodeThrow(25, 286, Literal("message"), Fatal))
    ensures var r := Eval(cfg, s, log, CodeThrow(25, 286, Literal("message"), Fatal));
      CaughtOnly(r, log)
      && r.log[|log|].error.Error? && r.log[|log|].error.errorType < |cfg.reg|
      && cfg.reg[r.log[|log|].error.errorType].code == 25
      && r.log[|log|].message == "message"
  {
    CaughtOnce(cfg, s, log, At(284), ThrowCode(25, At(286), Literal("message")), Fatal);
  }

  /** Code 122 names a non-fatal type, which CATCH_ANY takes; the message is
      formatted. */
  lemma ThrowCodeFormatted(cfg: Config, tt: TestTypes, s: State, log: seq<Observation>)
    requires TestRegistry(cfg, tt) && Inv(cfg, s) && s.tryTotal == 0
    ensures StmtOk(cfg, CodeThrow(122, 298, Formatted("message %d", [1]), Any))
    ensures var r := Eval(cfg, s, log, CodeThrow(122, 298, Formatted("message %d", [1]), Any));
      CaughtOnly(r, log)
      && r.log[|log|].error.Error? && r.log[|log|].error.errorType < |cfg.reg|
      && cfg.reg[r.log[|log|].error.errorType].code == 122
      && r.log[|log|].message == "message 1"
  {
    Format1();
    CaughtOnce(cfg, s, log, At(296), ThrowCode(122, At(298), Formatted("message %d", [1])), Any);
  }

  /** An unregistered code throws UnknownError. */
  lemma ThrowCodeUnknown(cfg: Config, tt: TestTypes, s: State, log: seq<Observation>)
    requires TestRegistry(cfg, tt) && Inv(cfg, s) && s.tryTotal == 0
    ensures StmtOk(cfg, CodeThrow(777, 310, Literal("message"), Any))
    ensures var r := Eval(cfg, s, log, CodeThrow(777, 310, Literal("message"), Any));
      CaughtOnly(r, log)
      && r.log[|log|].error.Error? && r.log[|log|].error.errorType == cfg.known.unknownError
      && r.log[|log|].message == "message"
  {
    CaughtOnce(cfg, s, log, At(308), ThrowCode(777, At(310), Literal("message")), Any);
  }

  // ---------------------------------------------------------------------
  // THROW_ON_SYS_ERROR(), THROW_SYS_ERROR() and their _FMT forms

  /** A false condition throws nothing, with or without a format. */
  lemma SysConditionFalse(cfg: Config, s: State, log: seq<Observation>, os: OsError)
    requires ValidConfig(cfg) && Inv(cfg, s)
    ensures Eval(cfg, s, log, ThrowOnSys(false, cfg.known.assertError, At(323), Literal("no error"), os))
            == Execution(s, log, Normal)
    ensures Eval(cfg, s, log, ThrowOnSys(false, cfg.known.assertError, At(324), Formatted("no error", []), os))
            == Execution(s, log, Normal)
  {
  }

  /** A system-error throw of AssertError, in a region whose one clause is
      CATCH_FATAL, is caught with the composed message and the errno suffix. */
  lemma SysCaught(cfg: Config, s: State, log: seq<Observation>, site: Site, thrower: Stmt, msg: string)
    requires ValidConfig(cfg) && Inv(cfg, s) && s.tryTotal == 0
    requires thrower.ThrowSys? || (thrower.ThrowOnSys? && thrower.condition)
    requires thrower.errorType == cfg.known.assertError && !thrower.text.CurrentMessage?
    requires msg == SysErrorMessage(Compose(s, thrower.text), thrower.os.errno, thrower.os.description)
    requires |msg| < cfg.bufferSize
    ensures var r := Eval(cfg, s, log, Catching(site, thrower, Fatal));
      CaughtOnly(r, log)
      && r.log[|log|].error == Error(cfg.known.assertError, thrower.site)
      && r.log[|log|].message == msg
  {
    var s1 := TryBegin(cfg, s, site).0;
    assert Compose(s1, thrower.text) == Compose(s, thrower.text);
    assert Eval(cfg, s1, log, thrower) == Execution(Raise(cfg, s1, cfg.known.assertError, thrower.site, msg), log, Raised);
    CaughtOnce(cfg, s, log, site, thrower, Fatal);
  }

  /** errno E2BIG (7) is appended to a plain message, with the text the C
      library gives it ("Argument list too long"). */
  lemma SysOnErrno(cfg: Config, tt: TestTypes, s: State, log: seq<Observation>, description: string)
    requires TestRegistry(cfg, tt) && Inv(cfg, s) && s.tryTotal == 0 && |description| <= 32
    ensures var r := Eval(cfg, s, log, Catching(At(326), ThrowOnSys(true, cfg.known.assertError, At(329), Literal("message"), OsError(7, description)), Fatal));
      CaughtOnly(r, log)
      && r.log[|log|].error == Error(cfg.known.assertError, At(329))
      && r.log[|log|].message == "message: [7] " + description
  {
    MessageE2Big("message", description);
    SysCaught(cfg, s, log, At(326), ThrowOnSys(true, cfg.known.assertError, At(329), Literal("message"), OsError(7, description)), "message: [7] " + description);
  }

  /** errno 0 leaves a formatted message bare. */
  lemma SysOnFormattedNoErrno(cfg: Config, tt: TestTypes, s: State, log: seq<Observation>, description: string)
    requires TestRegistry(cfg, tt) && Inv(cfg, s) && s.tryTotal == 0
    ensures var r := Eval(cfg, s, log, Catching(At(340), ThrowOnSys(true, cfg.known.assertError, At(343), Formatted("message %d", [77]), OsError(0, description)), Fatal));
      CaughtOnly(r, log)
      && r.log[|log|].error == Error(cfg.known.assertError, At(343))
      && r.log[|log|].message == "message 77"
  {
    var thrower := ThrowOnSys(true, cfg.known.assertError, At(343), Formatted("message %d", [77]), OsError(0, description));
    ComposedSys(s, thrower.text, 0, description, "message 77");
    SysCaught(cfg, s, log, At(340), thrower, "message 77");
  }

  /** The formatted messages of the system-error blocks, with their
      suffixes. */
  lemma ComposedSys(s: State, text: Text, errno: int, description: string, msg: string)
    requires || (text == Formatted("message %d", [77]) && errno == 0 && msg == "message 77")
             || (text == Formatted("message %d", [77]) && errno == 7 && msg == "message 77: [7] " + description)
             || (text == Formatted("message %d", [1]) && errno == 5 && msg == "message 1: [5] " + description)
             || (text == Formatted("message %d", [1]) && errno == 0 && msg == "message 1")
    ensures SysErrorMessage(Compose(s, text), errno, description) == msg
  {
    if text.args == [77] {
      Format77();
      MessageE2Big("message 77", description);
    } else {
      Format1();
      MessageEio(description);
    }
  }

  /** errno E2BIG is appended to a formatted message. */
  lemma SysOnFormattedErrno(cfg: Config, tt: TestTypes, s: State, log: seq<Observation>, description: string)
    requires TestRegistry(cfg, tt) && Inv(cfg, s) && s.tryTotal == 0 && |description| <= 32
    ensures var r := Eval(cfg, s, log, Catching(At(354), ThrowOnSys(true, cfg.known.assertError, At(357), Formatted("message %d", [77]), OsError(7, description)), Fatal));
      CaughtOnly(r, log)
      && r.log[|log|].error == Error(cfg.known.assertError, At(357))
      && r.log[|log|].message == "message 77: [7] " + description
  {
    var thrower := ThrowOnSys(true, cfg.known.assertError, At(357), Formatted("message %d", [77]), OsError(7, description));
    ComposedSys(s, thrower.text, 7, description, "message 77: [7] " + description);
    SysCaught(cfg, s, log, At(354), thrower, "message 77: [7] " + description);
  }

  /** THROW_SYS_ERROR throws unconditionally; errno 0 adds nothing. */
  lemma SysNoErrno(cfg: Config, tt: TestTypes, s: State, log: seq<Observation>, description: string)
    requires TestRegistry(cfg, tt) && Inv(cfg, s) && s.tryTotal == 0
    ensures var r := Eval(cfg, s, log, Catching(At(368), ThrowSys(cfg.known.assertError, At(371), Literal("message"), OsError(0, description)), Fatal));
      CaughtOnly(r, log)
      && r.log[|log|].error == Error(cfg.known.assertError, At(371))
      && r.log[|log|].message == "message"
  {
    SysCaught(cfg, s, log, At(368), ThrowSys(cfg.known.assertError, At(371), Literal("message"), OsError(0, description)), "message");
  }

  /** errno EIO (5) is appended with whichever text the C library gives it:
      "Input/output error" (glibc) or "I/O error" (musl). */
  lemma SysFormattedErrno(cfg: Config, tt: TestTypes, s: State, log: seq<Observation>, description: string)
    requires TestRegistry(cfg, tt) && Inv(cfg, s) && s.tryTotal == 0 && |description| <= 32
    ensures var r := Eval(cfg, s, log, Catching(At(382), ThrowSys(cfg.known.assertError, At(385), Formatted("message %d", [1]), OsError(5, description)), Fatal));
      CaughtOnly(r, log)
      && r.log[|log|].error == Error(cfg.known.assertError, At(385))
      && r.log[|log|].message == "message 1: [5] " + description
  {
    var thrower := ThrowSys(cfg.known.assertError, At(385), Formatted("message %d", [1]), OsError(5, description));
    ComposedSys(s, thrower.text, 5, description, "message 1: [5] " + description);
    SysCaught(cfg, s, log, At(382), thrower, "message 1: [5] " + description);
  }

  /** errno 0 leaves a formatted THROW_SYS_ERROR_FMT message bare. */
  lemma SysFormattedNoErrno(cfg: Config, tt: TestTypes, s: State, log: seq<Observation>, description: string)
    requires TestRegistry(cfg, tt) && Inv(cfg, s) && s.tryTotal == 0
    ensures var r := Eval(cfg, s, log, Catching(At(400), ThrowSys(cfg.known.assertError, At(403), Formatted("message %d", [1]), OsError(0, description)), Fatal));
      CaughtOnly(r, log)
      && r.log[|log|].error == Error(cfg.known.assertError, At(403))
      && r.log[|log|].message == "message 1"
  {
    var thrower := ThrowSys(cfg.known.assertError, At(403), Formatted("message %d", [1]), OsError(0, description));
    ComposedSys(s, thrower.text, 0, description, "message 1");
    SysCaught(cfg, s, log, At(400), thrower, "message 1");
  }

  // ---------------------------------------------------------------------
  // Uncaught error

  /** An error of any type thrown with no region open leaves the program,
      which exits with UnhandledError's code whatever the thrown type's own
      code is (TestChildError's is 200). */
  lemma UncaughtExits(cfg: Config, s: State, log: seq<Observation>, t: TypeRef, site: Site, text: Text)
    requires ValidConfig(cfg) && Inv(cfg, s) && s.tryTotal == 0 && t < |cfg.reg|
    ensures Terminate(cfg, Eval(cfg, s, log, Throw(t, site, text)))
            == Exited(cfg.reg[cfg.known.unhandledError].code)
  {
  }

  /** The block of the test: TestChildError, code 200, thrown at line 425. */
  lemma UncaughtChildExits(cfg: Config, tt: TestTypes, s: State, log: seq<Observation>)
    requires TestRegistry(cfg, tt) && Inv(cfg, s) && s.tryTotal == 0
    ensures cfg.reg[tt.child].code == 200
    ensures Terminate(cfg, Eval(cfg, s, log, Throw(tt.child, At(425), Literal("does not get caught!"))))
            == Exited(cfg.reg[cfg.known.unhandledError].code)
  {
    UncaughtExits(cfg, s, log, tt.child, At(425), Literal("does not get caught!"));
  }
}
