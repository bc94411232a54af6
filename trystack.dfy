/** The state of one error context and the steps the runtime takes on it:
    entering a region, throwing, testing a catch clause, leaving a region.
    These functions are the specification the ErrorContext class is proved
    against. */
module TryStack {
  import opened ErrorTypes
  import opened Messages

  /** errorStateTry, errorStateCatch, errorStateEnd: the body (or a FINALLY
      after a clean body) is running; an error has arrived and no catch clause
      has taken it yet; a catch clause took it, or the region is closed. */
  datatype Phase = Try | Catch | End

  /** One tryList entry. `uncaught` is set when an error is thrown into the
      region and cleared when one of its catch clauses takes the error. */
  datatype Frame = Frame(state: Phase, uncaught: bool)

  /** Where a throw (or a TRY_BEGIN) is written. */
  datatype Site = Site(fileName: string, functionName: string, fileLine: int)

  /** The active error; NoError is the all-zero Error record. */
  datatype Error = NoError | Error(errorType: TypeRef, site: Site)

  /** A registered handler, identified by its position in the caller's list. */
  type Handler = nat

  /** One invocation handler(tryDepth, fatal). */
  datatype HandlerCall = HandlerCall(handler: Handler, tryDepth: nat, fatal: bool)

  /** The three CATCH macros. */
  datatype Clause = Exact(errorType: TypeRef) | Any | Fatal

  /** The compiled-in parameters: the registry, the types the runtime names,
      ERROR_TRY_MAX and the size of the message buffer. */
  datatype Config = Config(reg: Registry, known: Known, tryMax: nat, bufferSize: nat)

  predicate ValidConfig(cfg: Config)
  {
    WellFormed(cfg.reg) && KnownIn(cfg.reg, cfg.known) && cfg.tryMax >= 1 && cfg.bufferSize >= 1
  }

  /** errorContext: tryTotal, tryList[0..ERROR_TRY_MAX] (entry 0 unused), the
      active error and the buffer text, the handler list, and the calls made
      to the handlers so far. */
  datatype State = State(
    tryTotal: nat,
    tryList: seq<Frame>,
    error: Error,
    message: string,
    handlerList: seq<Handler>,
    handlerCalls: seq<HandlerCall>)

  predicate Inv(cfg: Config, s: State)
  {
    |s.tryList| == cfg.tryMax + 1 && s.tryTotal <= cfg.tryMax
    && |s.message| < cfg.bufferSize
    && (s.error.Error? ==> s.error.errorType < |cfg.reg|)
  }

  const TooManyTries := "too many nested try blocks"

  /** The zero-initialised context: no region open, no error, no handler. */
  function Init(cfg: Config): (s: State)
    requires ValidConfig(cfg)
    ensures Inv(cfg, s) && s.tryTotal == 0 && s.error == NoError && s.handlerList == []
  {
    State(0, seq(cfg.tryMax + 1, _ => Frame(Try, false)), NoError, "", [], [])
  }

  /** errorHandlerSet: the list is replaced, not extended. */
  function HandlerSet(s: State, handlers: seq<Handler>): State
  {
    s.(handlerList := handlers)
  }

  /** The jump into the innermost open region: it now holds an uncaught error.
      With no region open there is nothing to mark (the process exits). */
  function MarkUncaught(cfg: Config, s: State): (r: State)
    requires Inv(cfg, s)
    ensures Inv(cfg, r)
  {
    if s.tryTotal == 0 then s
    else s.(tryList := s.tryList[s.tryTotal := s.tryList[s.tryTotal].(uncaught := true)])
  }

  /** errorInternalThrow: overwrite the active error, copy the message into
      the buffer, and transfer to the innermost open region. */
  function Raise(cfg: Config, s: State, t: TypeRef, site: Site, msg: string): (r: State)
    requires ValidConfig(cfg) && Inv(cfg, s) && t < |cfg.reg|
    ensures Inv(cfg, r)
  {
    MarkUncaught(cfg, s.(error := Error(t, site), message := Truncate(msg, cfg.bufferSize)))
  }

  /** errorInternalTry: open a region, or, when ERROR_TRY_MAX regions are
      already open, throw the fatal AssertError from the TRY_BEGIN site into
      the innermost open region without taking a frame. */
  function TryBegin(cfg: Config, s: State, site: Site): (r: (State, bool))
    requires ValidConfig(cfg) && Inv(cfg, s)
    ensures Inv(cfg, r.0)
  {
    if s.tryTotal >= cfg.tryMax then
      (Raise(cfg, s, cfg.known.assertError, site, TooManyTries), false)
    else
      var d := s.tryTotal + 1;
      (s.(tryTotal := d, tryList := s.tryList[d := Frame(Try, false)]), true)
  }

  /** TRY_BEGIN opens a region in Try exactly when fewer than ERROR_TRY_MAX
      are open; otherwise the depth stays and the guard's AssertError, with
      its message, is active and thrown from the TRY_BEGIN site. */
  lemma TryBeginSteps(cfg: Config, s: State, site: Site)
    requires ValidConfig(cfg) && Inv(cfg, s)
    ensures var (r, entered) := TryBegin(cfg, s, site);
      (entered <==> s.tryTotal < cfg.tryMax)
      && (entered ==> r.tryTotal == s.tryTotal + 1 && r.tryList[r.tryTotal] == Frame(Try, false)
                      && r.error == s.error && r.message == s.message)
      && (!entered ==> r.tryTotal == s.tryTotal && r.error == Error(cfg.known.assertError, site)
                       && r.message == Truncate(TooManyTries, cfg.bufferSize))
  {
  }

  /** Whether a catch clause takes an error of type t: CATCH(T) takes a
      non-fatal instance of T, CATCH_ANY any non-fatal error, CATCH_FATAL a
      fatal one. */
  predicate Matches(reg: Registry, clause: Clause, t: TypeRef)
    requires WellFormed(reg) && t < |reg|
  {
    match clause
    case Exact(c) => !reg[t].fatal && InstanceOf(reg, t, c)
    case Any => !reg[t].fatal
    case Fatal => reg[t].fatal
  }

  /** One call to every handler, in list order, with the same arguments. */
  function Calls(handlers: seq<Handler>, tryDepth: nat, fatal: bool): (r: seq<HandlerCall>)
    ensures |r| == |handlers|
  {
    if handlers == [] then []
    else [HandlerCall(handlers[0], tryDepth, fatal)] + Calls(handlers[1..], tryDepth, fatal)
  }

  /** The k-th call goes to the k-th handler, with the common arguments. */
  lemma {:induction false} CallsInOrder(handlers: seq<Handler>, tryDepth: nat, fatal: bool)
    ensures forall k :: 0 <= k < |handlers| ==>
      Calls(handlers, tryDepth, fatal)[k] == HandlerCall(handlers[k], tryDepth, fatal)
  {
    if handlers != [] {
      CallsInOrder(handlers[1..], tryDepth, fatal);
    }
  }

  /** errorInternalCatch: the first clause tested for an arriving error calls
      every handler with the depth and whether that clause is CATCH_FATAL, and
      moves the region from Try to Catch; a clause that matches in Catch
      moves it to End and clears `uncaught`. */
  function CatchTest(cfg: Config, s: State, clause: Clause): (r: (State, bool))
    requires ValidConfig(cfg) && Inv(cfg, s) && s.tryTotal >= 1
    requires clause.Exact? ==> clause.errorType < |cfg.reg|
    ensures Inv(cfg, r.0)
  {
    var d := s.tryTotal;
    var s1 :=
      if s.tryList[d].state == Try then
        s.(handlerCalls := s.handlerCalls + Calls(s.handlerList, d, clause.Fatal?),
           tryList := s.tryList[d := s.tryList[d].(state := Catch)])
      else s;
    if s1.tryList[d].state == Catch && s.error.Error? && Matches(cfg.reg, clause, s.error.errorType) then
      (s1.(tryList := s1.tryList[d := Frame(End, false)]), true)
    else
      (s1, false)
  }

  /** A clause takes the error exactly when the region has not already
      caught it and the clause matches its type; taking it closes the catch
      phase. The handlers are called only by the first test after the error
      arrives, each once, in order. */
  lemma CatchTestSteps(cfg: Config, s: State, clause: Clause)
    requires ValidConfig(cfg) && Inv(cfg, s) && s.tryTotal >= 1
    requires clause.Exact? ==> clause.errorType < |cfg.reg|
    ensures var (r, taken) := CatchTest(cfg, s, clause);
      var d := s.tryTotal;
      r.tryTotal == d && r.error == s.error && r.message == s.message && r.handlerList == s.handlerList
      && (taken <==> s.tryList[d].state != End && s.error.Error? && Matches(cfg.reg, clause, s.error.errorType))
      && (taken ==> r.tryList[d] == Frame(End, false))
      && (!taken ==> r.tryList[d].state == (if s.tryList[d].state == Try then Catch else s.tryList[d].state))
      && r.handlerCalls == s.handlerCalls + (if s.tryList[d].state == Try then Calls(s.handlerList, d, clause.Fatal?) else [])
  {
    var d := s.tryTotal;
    if s.tryList[d].state != Try {
      assert s.handlerCalls + [] == s.handlerCalls;
    }
  }

  /** TRY_END: close the innermost region. An error it did not catch moves on
      to the enclosing region (the boolean is true); otherwise, once no region
      is open, the active error is cleared. */
  function TryEnd(cfg: Config, s: State): (r: (State, bool))
    requires ValidConfig(cfg) && Inv(cfg, s) && s.tryTotal >= 1
    ensures Inv(cfg, r.0)
  {
    var d := s.tryTotal;
    var uncaught := s.tryList[d].uncaught;
    var s1 := s.(tryTotal := d - 1, tryList := s.tryList[d := Frame(End, uncaught)]);
    if uncaught then (MarkUncaught(cfg, s1), true)
    else if d == 1 then (s1.(error := NoError), false)
    else (s1, false)
  }

  /** TRY_END pops one region; the error moves on exactly when that region
      did not catch it, and closing the last region clears it. */
  lemma TryEndSteps(cfg: Config, s: State)
    requires ValidConfig(cfg) && Inv(cfg, s) && s.tryTotal >= 1
    ensures var (r, propagate) := TryEnd(cfg, s);
      r.tryTotal == s.tryTotal - 1
      && (propagate <==> s.tryList[s.tryTotal].uncaught)
      && (propagate ==> r.error == s.error)
      && (!propagate && s.tryTotal == 1 ==> r.error == NoError)
      && (!propagate && s.tryTotal > 1 ==> r.error == s.error)
  {
  }
}
