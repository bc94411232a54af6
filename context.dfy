/** The error context as the runtime keeps it: a fixed tryList array, the
    try counter, the active error with its fixed message buffer, and the
    handler list, updated in place. Every method is proved to take exactly
    the step the TryStack functions describe, and Run is proved to execute a
    statement exactly as Eval says. */
module Context {
  import opened ErrorTypes
  import opened Messages
  import opened TryStack
  import opened Regions

  class ErrorContext {
    const cfg: Config
    const tryList: array<Frame>
    const messageBuffer: array<char>
    var tryTotal: nat
    var error: Error
    var messageLen: nat
    var handlerList: seq<Handler>
    var handlerCalls: seq<HandlerCall>

    ghost predicate Valid()
      reads this, tryList, messageBuffer
    {
      ValidConfig(cfg)
      && tryList.Length == cfg.tryMax + 1 && tryTotal <= cfg.tryMax
      && messageBuffer.Length == cfg.bufferSize && messageLen < cfg.bufferSize
      && messageBuffer[messageLen] == '\0'
      && (error.Error? ==> error.errorType < |cfg.reg|)
    }

    /** The context as a State value; the message is the buffer up to its
        terminator. */
    function Abstract(): (s: State)
      reads this, tryList, messageBuffer
      requires Valid()
      ensures Inv(cfg, s)
    {
      State(tryTotal, tryList[..], error, messageBuffer[..messageLen], handlerList, handlerCalls)
    }

    constructor (cfg: Config)
      requires ValidConfig(cfg)
      ensures Valid() && this.cfg == cfg && Abstract() == Init(cfg)
      ensures fresh(tryList) && fresh(messageBuffer)
    {
      this.cfg := cfg;
      tryList := new Frame[cfg.tryMax + 1](_ => Frame(Try, false));
      messageBuffer := new char[cfg.bufferSize](_ => '\0');
      tryTotal := 0;
      error := NoError;
      messageLen := 0;
      handlerList := [];
      handlerCalls := [];
      new;
      assert tryList[..] == seq(cfg.tryMax + 1, _ => Frame(Try, false));
    }

    /** errorTryDepth() */
    function TryDepth(): nat
      reads this
    {
      tryTotal
    }

    /** errorType(), errorCode(), errorName(), errorMessage(), errorFileName(),
        errorFunctionName(), errorFileLine(): valid while an error is active. */
    function ErrorType(): TypeRef
      reads this
      requires error.Error?
    {
      error.errorType
    }

    function ErrorCode(): int
      reads this, tryList, messageBuffer
      requires Valid() && error.Error?
    {
      cfg.reg[error.errorType].code
    }

    function ErrorName(): string
      reads this, tryList, messageBuffer
      requires Valid() && error.Error?
    {
      cfg.reg[error.errorType].name
    }

    function ErrorMessage(): string
      reads this, tryList, messageBuffer
      requires Valid()
    {
      messageBuffer[..messageLen]
    }

    function ErrorFileName(): string
      reads this
      requires error.Error?
    {
      error.site.fileName
    }

    function ErrorFunctionName(): string
      reads this
      requires error.Error?
    {
      error.site.functionName
    }

    function ErrorFileLine(): int
      reads this
      requires error.Error?
    {
      error.site.fileLine
    }

    /** errorHandlerSet: installs exactly the given list. */
    method HandlerSet(list: seq<Handler>)
      requires Valid()
      modifies this
      ensures Valid() && Abstract() == TryStack.HandlerSet(old(Abstract()), list)
    {
      handlerList := list;
    }

    /** Copy a message into the buffer, keeping what fits beside the
        terminator. */
    method Store(msg: string)
      requires Valid()
      modifies this, messageBuffer
      ensures Valid()
      ensures Abstract() == old(Abstract()).(message := Truncate(msg, cfg.bufferSize))
    {
      var n := if |msg| < messageBuffer.Length then |msg| else messageBuffer.Length - 1;
      var i := 0;
      while i < n
        invariant 0 <= i <= n
        invariant messageBuffer[..i] == msg[..i]
        modifies messageBuffer
      {
        messageBuffer[i] := msg[i];
        i := i + 1;
      }
      messageBuffer[n] := '\0';
      messageLen := n;
      assert messageBuffer[..n] == msg[..n];
    }

    /** The jump into the innermost open region. */
    method MarkUncaught()
      requires Valid()
      modifies tryList
      ensures Valid() && Abstract() == TryStack.MarkUncaught(cfg, old(Abstract()))
    {
      if tryTotal > 0 {
        tryList[tryTotal] := tryList[tryTotal].(uncaught := true);
      }
    }

    /** THROW / errorInternalThrow. */
    method Throw(t: TypeRef, site: Site, msg: string)
      requires Valid() && t < |cfg.reg|
      modifies this, tryList, messageBuffer
      ensures Valid() && Abstract() == Raise(cfg, old(Abstract()), t, site, msg)
    {
      error := Error(t, site);
      Store(msg);
      MarkUncaught();
    }

    /** RETHROW: the active error, unchanged, goes to the enclosing region. */
    method Rethrow()
      requires Valid()
      modifies tryList
      ensures Valid() && Abstract() == TryStack.MarkUncaught(cfg, old(Abstract()))
      ensures error == old(error) && ErrorMessage() == old(ErrorMessage())
    {
      MarkUncaught();
    }

    /** THROW_CODE: the code is resolved against the registry first. */
    method ThrowCode(code: int, site: Site, msg: string)
      requires Valid()
      modifies this, tryList, messageBuffer
      ensures Valid()
      ensures Abstract() == Raise(cfg, old(Abstract()), TypeFromCode(cfg.reg, code, cfg.known.unknownError), site, msg)
    {
      var t := ErrorTypeFromCode(cfg.reg, code, cfg.known.unknownError);
      Throw(t, site, msg);
    }

    /** THROW_SYS_ERROR: the errno captured at the call decides the suffix. */
    method ThrowSys(t: TypeRef, site: Site, msg: string, os: OsError)
      requires Valid() && t < |cfg.reg|
      modifies this, tryList, messageBuffer
      ensures Valid()
      ensures Abstract() == Raise(cfg, old(Abstract()), t, site, SysErrorMessage(msg, os.errno, os.description))
    {
      Throw(t, site, SysErrorMessage(msg, os.errno, os.description));
    }

    /** THROW_ON_SYS_ERROR: a system-error throw when the test is true,
        nothing at all otherwise. */
    method ThrowOnSys(condition: bool, t: TypeRef, site: Site, msg: string, os: OsError)
      requires Valid() && t < |cfg.reg|
      modifies this, tryList, messageBuffer
      ensures Valid()
      ensures condition ==> Abstract() == Raise(cfg, old(Abstract()), t, site, SysErrorMessage(msg, os.errno, os.description))
      ensures !condition ==> Abstract() == old(Abstract())
    {
      if condition {
        ThrowSys(t, site, msg, os);
      }
    }

    /** TRY_BEGIN / errorInternalTry. */
    method TryBegin(site: Site) returns (entered: bool)
      requires Valid()
      modifies this, tryList, messageBuffer
      ensures Valid() && (Abstract(), entered) == TryStack.TryBegin(cfg, old(Abstract()), site)
    {
      if tryTotal >= cfg.tryMax {
        Throw(cfg.known.assertError, site, TooManyTries);
        entered := false;
      } else {
        tryTotal := tryTotal + 1;
        tryList[tryTotal] := Frame(Try, false);
        entered := true;
      }
    }

    /** CATCH / CATCH_ANY / CATCH_FATAL / errorInternalCatch. */
    method CatchTest(clause: Clause) returns (taken: bool)
      requires Valid() && tryTotal >= 1 && (clause.Exact? ==> clause.errorType < |cfg.reg|)
      modifies this, tryList
      ensures Valid() && (Abstract(), taken) == TryStack.CatchTest(cfg, old(Abstract()), clause)
    {
      var d := tryTotal;
      if tryList[d].state == Try {
        var fatal := clause.Fatal?;
        var calls := [];
        for i := 0 to |handlerList|
          invariant |calls| == i
          invariant forall k :: 0 <= k < i ==> calls[k] == HandlerCall(handlerList[k], d, fatal)
          modifies {}
        {
          calls := calls + [HandlerCall(handlerList[i], d, fatal)];
        }
        CallsInOrder(handlerList, d, fatal);
        assert calls == Calls(handlerList, d, fatal);
        handlerCalls := handlerCalls + calls;
        tryList[d] := tryList[d].(state := Catch);
      }
      taken := tryList[d].state == Catch && error.Error? && Matches(cfg.reg, clause, error.errorType);
      if taken {
        tryList[d] := Frame(End, false);
      }
    }

    /** TRY_END: close the region; say whether its error moves on. */
    method TryEnd() returns (propagate: bool)
      requires Valid() && tryTotal >= 1
      modifies this, tryList
      ensures Valid() && (Abstract(), propagate) == TryStack.TryEnd(cfg, old(Abstract()))
    {
      var d := tryTotal;
      propagate := tryList[d].uncaught;
      tryList[d] := Frame(End, propagate);
      tryTotal := d - 1;
      if propagate {
        MarkUncaught();
      } else if d == 1 {
        error := NoError;
      }
    }

    /** Run a statement over the context: the macros expanded. */
    method Run(stmt: Stmt, log: seq<Observation>) returns (log': seq<Observation>, outcome: Outcome)
      requires Valid() && StmtOk(cfg, stmt)
      modifies this, tryList, messageBuffer
      ensures Valid()
      ensures Execution(Abstract(), log', outcome) == Eval(cfg, old(Abstract()), log, stmt)
      decreases cfg.tryMax - tryTotal, stmt, 1
    {
      match stmt
      case Skip =>
        log', outcome := log, Normal;
      case Observe(point) =>
        log', outcome := log + [Snapshot(cfg, Abstract(), point)], Normal;
      case Seq(a, b) =>
        log', outcome := Run(a, log);
        if outcome == Normal {
          log', outcome := Run(b, log');
        }
      case Throw(t, site, text) =>
        Throw(t, site, Compose(Abstract(), text));
        log', outcome := log, Raised;
      case ThrowCode(code, site, text) =>
        ThrowCode(code, site, Compose(Abstract(), text));
        log', outcome := log, Raised;
      case ThrowSys(t, site, text, os) =>
        ThrowSys(t, site, Compose(Abstract(), text), os);
        log', outcome := log, Raised;
      case ThrowOnSys(condition, t, site, text, os) =>
        ThrowOnSys(condition, t, site, Compose(Abstract(), text), os);
        log', outcome := log, if condition then Raised else Normal;
      case Rethrow =>
        Rethrow();
        log', outcome := log, Raised;
      case SetHandlers(handlers) =>
        HandlerSet(handlers);
        log', outcome := log, Normal;
      case Region(_, _, _, _) =>
        log', outcome := RunRegion(stmt, log);
      case RecursiveRegion(_, _, _, _) =>
        log', outcome := RunRegion(stmt, log);
    }

    method RunRegion(stmt: Stmt, log: seq<Observation>) returns (log': seq<Observation>, outcome: Outcome)
      requires Valid() && StmtOk(cfg, stmt) && IsRegion(stmt)
      modifies this, tryList, messageBuffer
      ensures Valid()
      ensures Execution(Abstract(), log', outcome) == EvalRegion(cfg, old(Abstract()), log, stmt)
      decreases cfg.tryMax - tryTotal, stmt, 0
    {
      var entered := TryBegin(stmt.site);
      if !entered {
        return log, Raised;
      }
      log', outcome := Run(RegionBody(stmt), log);
      if outcome == Raised {
        log', outcome := RunCatches(stmt, 0, log');
      }
      log', outcome := Run(stmt.final, log');
      var propagate := TryEnd();
      outcome := if propagate then Raised else Normal;
    }

    method RunCatches(stmt: Stmt, i: nat, log: seq<Observation>) returns (log': seq<Observation>, outcome: Outcome)
      requires Valid() && StmtOk(cfg, stmt) && IsRegion(stmt)
      requires tryTotal >= 1 && i <= |stmt.catches|
      modifies this, tryList, messageBuffer
      ensures Valid()
      ensures Execution(Abstract(), log', outcome) == EvalCatches(cfg, old(Abstract()), log, stmt, i)
      decreases cfg.tryMax - tryTotal, stmt, |stmt.catches| - i
    {
      if i == |stmt.catches| {
        return log, Raised;
      }
      var taken := CatchTest(stmt.catches[i].clause);
      if taken {
        log', outcome := Run(stmt.catches[i].body, log);
      } else {
        log', outcome := RunCatches(stmt, i + 1, log);
      }
    }
  }
}
