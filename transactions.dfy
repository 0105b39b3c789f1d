/**
 * `handle_transaction_notification`: a transaction notification is
 * unpacked (meta, JSON transaction, parsed message), its outer and inner
 * instructions are flattened and split into compiled and parsed ones, and
 * every partially decoded instruction of a watched program whose data is
 * recognised is routed to its handler, in order.
 */
module Transactions {
  import opened Options
  import opened Bytes
  import opened Programs
  import PumpFunProgram
  import DaosFundDeployerProgram
  import SerumProgram
  import RaydiumProgram

  datatype CompiledInstruction = CompiledInstruction(programIdIndex: nat, accounts: seq<nat>, data: string)

  /**
   * A partially decoded instruction; `decoded` is the base58 decoding of
   * `data` (`None` when `data` is not valid base58).
   */
  datatype PartiallyDecodedInstruction =
    PartiallyDecodedInstruction(programId: string, accounts: seq<string>, data: string, decoded: Option<seq<byte>>)

  datatype ParsedInstruction = FullyParsed(program: string, programId: string) | PartiallyDecoded(ix: PartiallyDecodedInstruction)
  datatype Instruction = Compiled(compiled: CompiledInstruction) | Parsed(parsed: ParsedInstruction)
  datatype InnerInstructions = InnerInstructions(index: nat, instructions: seq<Instruction>)
  datatype Meta = Meta(innerInstructions: Option<seq<InnerInstructions>>)
  datatype Message = ParsedMessage(accountKeys: seq<string>, instructions: seq<Instruction>) | RawMessage
  datatype EncodedTransaction = JsonTransaction(message: Message) | BinaryTransaction
  datatype Notification = Notification(slot: nat, signature: string, transaction: EncodedTransaction, meta: Option<Meta>)

  // ---------------------------------------------------------------------------
  // Flattening

  /** The inner instructions of all groups, group after group. */
  function InnerFlat(groups: seq<InnerInstructions>): seq<Instruction>
  {
    if groups == [] then [] else InnerFlat(groups[..|groups| - 1]) + groups[|groups| - 1].instructions
  }

  function InnerCount(groups: seq<InnerInstructions>): nat
  {
    if groups == [] then 0 else InnerCount(groups[..|groups| - 1]) + |groups[|groups| - 1].instructions|
  }

  /** The instructions in the order they are collected: outer ones, then the inner groups when there are any. */
  function Flatten(outer: seq<Instruction>, inner: Option<seq<InnerInstructions>>): seq<Instruction>
  {
    match inner
    case Some(groups) => outer + InnerFlat(groups)
    case None => outer
  }

  /** The parsed instructions of `s`, in order. */
  function ParsedOf(s: seq<Instruction>): seq<ParsedInstruction>
  {
    if s == [] then []
    else ParsedOf(s[..|s| - 1]) + (if s[|s| - 1].Parsed? then [s[|s| - 1].parsed] else [])
  }

  /** The compiled instructions of `s`, in order. */
  function CompiledOf(s: seq<Instruction>): seq<CompiledInstruction>
  {
    if s == [] then []
    else CompiledOf(s[..|s| - 1]) + (if s[|s| - 1].Compiled? then [s[|s| - 1].compiled] else [])
  }

  lemma {:induction false} InnerFlatLength(groups: seq<InnerInstructions>)
    ensures |InnerFlat(groups)| == InnerCount(groups)
  {
    if groups != [] {
      InnerFlatLength(groups[..|groups| - 1]);
    }
  }

  /** Inner group `g` starts right after the outer instructions and the groups before it. */
  lemma {:induction false} FlattenPositions(outer: seq<Instruction>, groups: seq<InnerInstructions>, g: nat, j: nat)
    requires g < |groups| && j < |groups[g].instructions|
    ensures |outer| + InnerCount(groups[..g]) + j < |Flatten(outer, Some(groups))|
    ensures Flatten(outer, Some(groups))[|outer| + InnerCount(groups[..g]) + j] == groups[g].instructions[j]
  {
    InnerFlatPosition(groups, g, j);
  }

  lemma {:induction false} InnerFlatPosition(groups: seq<InnerInstructions>, g: nat, j: nat)
    requires g < |groups| && j < |groups[g].instructions|
    ensures InnerCount(groups[..g]) + j < |InnerFlat(groups)|
    ensures InnerFlat(groups)[InnerCount(groups[..g]) + j] == groups[g].instructions[j]
  {
    var n := |groups| - 1;
    assert groups[..n + 1] == groups;
    InnerFlatLength(groups[..n]);
    if g < n {
      assert groups[..n][..g] == groups[..g];
      InnerFlatPosition(groups[..n], g, j);
    } else {
      assert groups[..g] == groups[..n];
    }
  }

  lemma {:induction false} ParsedOfAppend(a: seq<Instruction>, b: seq<Instruction>)
    ensures ParsedOf(a + b) == ParsedOf(a) + ParsedOf(b)
    ensures CompiledOf(a + b) == CompiledOf(a) + CompiledOf(b)
    decreases |b|
  {
    if b != [] {
      var n := |b| - 1;
      assert (a + b)[..|a + b| - 1] == a + b[..n];
      ParsedOfAppend(a, b[..n]);
    } else {
      assert a + b == a;
    }
  }

  /** Each instruction is collected exactly once: as parsed or as compiled. */
  lemma {:induction false} PartitionCount(s: seq<Instruction>)
    ensures |ParsedOf(s)| + |CompiledOf(s)| == |s|
  {
    if s != [] {
      PartitionCount(s[..|s| - 1]);
    }
  }

  /** Over a whole notification, the two lists hold as many instructions as the outer list and all inner groups together. */
  lemma NotificationPartitionCount(outer: seq<Instruction>, inner: Option<seq<InnerInstructions>>)
    ensures |ParsedOf(Flatten(outer, inner))| + |CompiledOf(Flatten(outer, inner))|
              == |outer| + (if inner.Some? then InnerCount(inner.value) else 0)
  {
    PartitionCount(Flatten(outer, inner));
    if inner.Some? {
      InnerFlatLength(inner.value);
    }
  }

  // ---------------------------------------------------------------------------
  // Dispatch

  /** The handlers the dispatch can reach; `RaydiumInitializeLog` only logs. */
  datatype Handler =
    | CreationHandler | BuyHandler | SellHandler
    | InitializeCurveHandler
    | InitializeMarketHandler
    | RaydiumInitializeLog | InitializeTwoHandler

  datatype Event = Event(handler: Handler, ix: PartiallyDecodedInstruction)

  /**
   * What one parsed instruction leads to: nothing, a handler that returns, a
   * handler that panics, or a panic inside a classifier.
   */
  datatype Route = NoHandler | Fire(handler: Handler) | HandlerPanic(handler: Handler) | ClassifierPanic

  /** The routes that end the notification's handling. */
  predicate Panics(r: Route)
  {
    r.ClassifierPanic? || r.HandlerPanic?
  }

  /**
   * Whether a handler's account lookups panic on an instruction: an `unwrap`
   * of an account index the instruction does not have. `initialize_two_handler`
   * reads account 7, `initialize_curve_handler` accounts 1, 3 and 9, and
   * `creation_handler` accounts 0, 2, 3 and 7; `initialize_market_handler`
   * does nothing, and the bodies of `buy_handler` and `sell_handler` are not
   * part of this model.
   */
  predicate HandlerPanics(h: Handler, ix: PartiallyDecodedInstruction)
  {
    match h
    case InitializeTwoHandler => |ix.accounts| <= 7
    case InitializeCurveHandler => |ix.accounts| <= 9
    case CreationHandler => |ix.accounts| <= 7
    case _ => false
  }

  /** Calling handler `h` on `ix`: it returns, or it panics. */
  function Launch(h: Handler, ix: PartiallyDecodedInstruction): (r: Route)
    ensures (r.Fire? || r.HandlerPanic?) && r.handler == h
    ensures r.HandlerPanic? <==> HandlerPanics(h, ix)
  {
    if HandlerPanics(h, ix) then HandlerPanic(h) else Fire(h)
  }

  /** The body of the dispatch loop for one parsed instruction. */
  function RouteOf(p: ParsedInstruction): Route
  {
    match p
    case FullyParsed(_, _) => NoHandler
    case PartiallyDecoded(ix) =>
      match FromStr(ix.programId)
      case None => NoHandler
      case Some(PumpFun) =>
        (match PumpFunProgram.FromData(ix.data, ix.decoded)
         case Recognised(f) =>
           Launch(if f.Creation? then CreationHandler else if f.Buy? then BuyHandler else SellHandler, ix)
         case Unrecognised => NoHandler
         case Panic => ClassifierPanic)
      case Some(DaosFundDeployer) =>
        (match DaosFundDeployerProgram.FromData(ix.data, ix.decoded)
         case Recognised(_) => Launch(InitializeCurveHandler, ix)
         case Unrecognised => NoHandler
         case Panic => ClassifierPanic)
      case Some(Serum) =>
        (match SerumProgram.FromData(ix.data, ix.decoded)
         case Recognised(_) => Launch(InitializeMarketHandler, ix)
         case Unrecognised => NoHandler
         case Panic => ClassifierPanic)
      case Some(Raydium) =>
        (match RaydiumProgram.FromData(ix.data, ix.decoded)
         case Recognised(f) => Launch(if f.Initialize? then RaydiumInitializeLog else InitializeTwoHandler, ix)
         case Unrecognised => NoHandler
         case Panic => ClassifierPanic)
  }

  /**
   * The routing table, keyed by handler: the program address the
   * instruction must carry and the function its data must decode to.
   */
  ghost predicate RoutedTo(ix: PartiallyDecodedInstruction, h: Handler)
  {
    match h
    case CreationHandler =>
      ix.programId == PumpFunProgram.ProgramAddress
      && PumpFunProgram.FromData(ix.data, ix.decoded) == Recognised(PumpFunProgram.Creation)
    case BuyHandler =>
      ix.programId == PumpFunProgram.ProgramAddress
      && PumpFunProgram.FromData(ix.data, ix.decoded) == Recognised(PumpFunProgram.Buy)
    case SellHandler =>
      ix.programId == PumpFunProgram.ProgramAddress
      && PumpFunProgram.FromData(ix.data, ix.decoded) == Recognised(PumpFunProgram.Sell)
    case InitializeCurveHandler =>
      ix.programId == DaosFundDeployerProgram.ProgramAddress
      && DaosFundDeployerProgram.FromData(ix.data, ix.decoded) == Recognised(DaosFundDeployerProgram.InitializeCurve)
    case InitializeMarketHandler =>
      ix.programId == SerumProgram.ProgramAddress
      && SerumProgram.FromData(ix.data, ix.decoded) == Recognised(SerumProgram.InitializeMarket)
    case RaydiumInitializeLog =>
      ix.programId == RaydiumProgram.ProgramAddress
      && RaydiumProgram.FromData(ix.data, ix.decoded) == Recognised(RaydiumProgram.Initialize)
    case InitializeTwoHandler =>
      ix.programId == RaydiumProgram.ProgramAddress
      && RaydiumProgram.FromData(ix.data, ix.decoded) == Recognised(RaydiumProgram.Initialize2)
  }

  /** The program whose instructions a handler serves. */
  function ProgramOf(h: Handler): ProgramId
  {
    match h
    case CreationHandler | BuyHandler | SellHandler => PumpFun
    case InitializeCurveHandler => DaosFundDeployer
    case InitializeMarketHandler => Serum
    case RaydiumInitializeLog | InitializeTwoHandler => Raydium
  }

  /** Every handler a route calls serves the program the address names. */
  lemma RouteOfProgram(ix: PartiallyDecodedInstruction)
    ensures var r := RouteOf(PartiallyDecoded(ix));
            (r.Fire? || r.HandlerPanic?) ==> FromStr(ix.programId) == Some(ProgramOf(r.handler))
  {
  }

  /**
   * A handler is called for a partially decoded instruction exactly when the
   * routing table sends it there, and it returns exactly when its body does
   * not panic on the instruction.
   */
  lemma RouteOfRoutedTo(ix: PartiallyDecodedInstruction, h: Handler)
    ensures (RouteOf(PartiallyDecoded(ix)) == Fire(h) || RouteOf(PartiallyDecoded(ix)) == HandlerPanic(h)) <==> RoutedTo(ix, h)
    ensures RouteOf(PartiallyDecoded(ix)) == Fire(h) <==> RoutedTo(ix, h) && !HandlerPanics(h, ix)
  {
    FromStrIff(ix.programId, ProgramOf(h));
    RouteOfProgram(ix);
  }

  /** Fully parsed instructions never reach a handler. */
  lemma FullyParsedNoHandler(program: string, programId: string)
    ensures RouteOf(FullyParsed(program, programId)) == NoHandler
  {
  }

  /** The outcome of the dispatch loop: every event fired, or the events fired before a classifier or a handler panicked. */
  datatype Dispatch = Done(events: seq<Event>) | Panicked(events: seq<Event>)

  /** The dispatch loop over `ps`, from the first instruction on. */
  function Dispatched(ps: seq<ParsedInstruction>): Dispatch
  {
    if ps == [] then Done([])
    else
      var n := |ps| - 1;
      match Dispatched(ps[..n])
      case Panicked(events) => Panicked(events)
      case Done(events) =>
        match RouteOf(ps[n])
        case NoHandler => Done(events)
        case Fire(h) => Done(events + [Event(h, ps[n].ix)])
        case HandlerPanic(_) => Panicked(events)
        case ClassifierPanic => Panicked(events)
  }

  /** The events of `ps` in order, as if nothing panicked. */
  function Fired(ps: seq<ParsedInstruction>): seq<Event>
  {
    if ps == [] then []
    else
      var n := |ps| - 1;
      Fired(ps[..n]) + (if RouteOf(ps[n]).Fire? then [Event(RouteOf(ps[n]).handler, ps[n].ix)] else [])
  }

  predicate NoPanicBefore(ps: seq<ParsedInstruction>, k: nat)
    requires k <= |ps|
  {
    forall i :: 0 <= i < k ==> !Panics(RouteOf(ps[i]))
  }

  /** The dispatch runs to the end exactly when no classifier and no handler panics, and then it fires every event in order. */
  lemma {:induction false} DispatchedDone(ps: seq<ParsedInstruction>)
    ensures Dispatched(ps).Done? <==> NoPanicBefore(ps, |ps|)
    ensures Dispatched(ps).Done? ==> Dispatched(ps).events == Fired(ps)
  {
    if ps != [] {
      var n := |ps| - 1;
      var init := ps[..n];
      DispatchedDone(init);
      assert forall i :: 0 <= i < n ==> init[i] == ps[i];
      assert NoPanicBefore(ps, |ps|) == (NoPanicBefore(init, n) && !Panics(RouteOf(ps[n])));
    }
  }

  /** A dispatch that panics stops at the first panicking instruction, with the events fired before it. */
  lemma {:induction false} DispatchedPanicked(ps: seq<ParsedInstruction>)
    requires Dispatched(ps).Panicked?
    ensures exists k :: 0 <= k < |ps| && Panics(RouteOf(ps[k])) && NoPanicBefore(ps, k)
                        && Dispatched(ps).events == Fired(ps[..k])
  {
    var n := |ps| - 1;
    var init := ps[..n];
    assert forall i :: 0 <= i < n ==> init[i] == ps[i];
    if Dispatched(init).Panicked? {
      DispatchedPanicked(init);
      var k :| 0 <= k < n && Panics(RouteOf(init[k])) && NoPanicBefore(init, k)
               && Dispatched(init).events == Fired(init[..k]);
      assert init[..k] == ps[..k];
      assert NoPanicBefore(ps, k);
    } else {
      DispatchedDone(init);
      assert Panics(RouteOf(ps[n]));
      assert Dispatched(ps).events == Fired(init);
      assert NoPanicBefore(ps, n);
    }
  }

  /** Every fired event comes from a partially decoded instruction in `ps` that the routing table sends to that handler. */
  lemma {:induction false} FiredOnlyRouted(ps: seq<ParsedInstruction>)
    ensures forall e :: e in Fired(ps) ==>
              exists i :: 0 <= i < |ps| && ps[i] == PartiallyDecoded(e.ix) && RoutedTo(e.ix, e.handler)
  {
    if ps != [] {
      var n := |ps| - 1;
      FiredOnlyRouted(ps[..n]);
      forall e | e in Fired(ps)
        ensures exists i :: 0 <= i < |ps| && ps[i] == PartiallyDecoded(e.ix) && RoutedTo(e.ix, e.handler)
      {
        if e in Fired(ps[..n]) {
          var i :| 0 <= i < n && ps[..n][i] == PartiallyDecoded(e.ix) && RoutedTo(e.ix, e.handler);
          assert ps[i] == ps[..n][i];
        } else {
          assert RouteOf(ps[n]) == Fire(e.handler) && e.ix == ps[n].ix;
          assert ps[n].PartiallyDecoded?;
          RouteOfRoutedTo(e.ix, e.handler);
        }
      }
    }
  }

  // ---------------------------------------------------------------------------
  // The notification handler

  /** The three `panic!`s taken before anything is collected. */
  datatype Rejection = MissingMeta | UnsupportedTransactionEncoding | UnsupportedMessageEncoding

  datatype NotificationOutcome =
    | Rejected(reason: Rejection)
    | Processed(compiled: seq<CompiledInstruction>, parsed: seq<ParsedInstruction>, dispatch: Dispatch)

  lemma CollectedStep(s: seq<Instruction>, i: nat)
    requires i < |s|
    ensures s[i].Parsed? ==> ParsedOf(s[..i + 1]) == ParsedOf(s[..i]) + [s[i].parsed]
                             && CompiledOf(s[..i + 1]) == CompiledOf(s[..i])
    ensures s[i].Compiled? ==> CompiledOf(s[..i + 1]) == CompiledOf(s[..i]) + [s[i].compiled]
                               && ParsedOf(s[..i + 1]) == ParsedOf(s[..i])
  {
    assert s[..i + 1][..i] == s[..i];
  }

  /** Pushes each instruction of `s` onto the parsed or the compiled list. */
  method Collect(s: seq<Instruction>, compiled0: seq<CompiledInstruction>, parsed0: seq<ParsedInstruction>)
    returns (compiled: seq<CompiledInstruction>, parsed: seq<ParsedInstruction>)
    ensures compiled == compiled0 + CompiledOf(s) && parsed == parsed0 + ParsedOf(s)
  {
    compiled, parsed := compiled0, parsed0;
    for i := 0 to |s|
      invariant compiled == compiled0 + CompiledOf(s[..i]) && parsed == parsed0 + ParsedOf(s[..i])
    {
      CollectedStep(s, i);
      var instruction := s[i];
      match instruction
      case Parsed(p) => parsed := parsed + [p];
      case Compiled(c) => compiled := compiled + [c];
    }
    assert s[..|s|] == s;
  }

  /** Collecting one more inner group appends its parsed and compiled instructions. */
  lemma CollectStep(outer: seq<Instruction>, groups: seq<InnerInstructions>, g: nat)
    requires g < |groups|
    ensures ParsedOf(outer + InnerFlat(groups[..g + 1]))
              == ParsedOf(outer + InnerFlat(groups[..g])) + ParsedOf(groups[g].instructions)
    ensures CompiledOf(outer + InnerFlat(groups[..g + 1]))
              == CompiledOf(outer + InnerFlat(groups[..g])) + CompiledOf(groups[g].instructions)
  {
    assert groups[..g + 1][..g] == groups[..g];
    var before := InnerFlat(groups[..g]);
    assert InnerFlat(groups[..g + 1]) == before + groups[g].instructions;
    assert outer + (before + groups[g].instructions) == (outer + before) + groups[g].instructions;
    ParsedOfAppend(outer + before, groups[g].instructions);
  }

  /** The collection loops: outer instructions first, then each inner group in order. */
  method CollectAll(outer: seq<Instruction>, inner: Option<seq<InnerInstructions>>)
    returns (compiled: seq<CompiledInstruction>, parsed: seq<ParsedInstruction>)
    ensures compiled == CompiledOf(Flatten(outer, inner)) && parsed == ParsedOf(Flatten(outer, inner))
  {
    compiled, parsed := Collect(outer, [], []);
    assert compiled == CompiledOf(outer) && parsed == ParsedOf(outer);
    if inner.Some? {
      var groups := inner.value;
      assert outer + InnerFlat(groups[..0]) == outer;
      for g := 0 to |groups|
        invariant compiled == CompiledOf(outer + InnerFlat(groups[..g]))
        invariant parsed == ParsedOf(outer + InnerFlat(groups[..g]))
      {
        CollectStep(outer, groups, g);
        compiled, parsed := Collect(groups[g].instructions, compiled, parsed);
      }
      assert groups[..|groups|] == groups;
    }
  }

  /** One more instruction of the dispatch, after a prefix that did not panic. */
  lemma DispatchedStep(ps: seq<ParsedInstruction>, i: nat, events: seq<Event>, route: Route)
    requires i < |ps| && Dispatched(ps[..i]) == Done(events) && route == RouteOf(ps[i])
    ensures Dispatched(ps[..i + 1]) == match route
                                       case NoHandler => Done(events)
                                       case Fire(h) => Done(events + [Event(h, ps[i].ix)])
                                       case HandlerPanic(_) => Panicked(events)
                                       case ClassifierPanic => Panicked(events)
  {
    assert ps[..i + 1][..i] == ps[..i];
  }

  /** Once a prefix has panicked, later instructions change nothing. */
  lemma {:induction false} DispatchedPanickedPrefix(ps: seq<ParsedInstruction>, k: nat)
    requires k <= |ps| && Dispatched(ps[..k]).Panicked?
    ensures Dispatched(ps) == Dispatched(ps[..k])
    decreases |ps| - k
  {
    if k < |ps| {
      var next := ps[..k + 1];
      assert next[..k] == ps[..k];
      assert Dispatched(next) == Dispatched(ps[..k]);
      DispatchedPanickedPrefix(ps, k + 1);
    } else {
      assert ps[..k] == ps;
    }
  }

  /** A prefix of `k` instructions none of which panics runs to its end. */
  lemma {:induction false} NoPanicPrefixDone(ps: seq<ParsedInstruction>, k: nat)
    requires k <= |ps| && NoPanicBefore(ps, k)
    ensures Dispatched(ps[..k]) == Done(Fired(ps[..k]))
  {
    var prefix := ps[..k];
    assert forall i :: 0 <= i < k ==> prefix[i] == ps[i];
    assert NoPanicBefore(prefix, k);
    DispatchedDone(prefix);
  }

  /** A panicking instruction after a prefix that ran to its end ends the dispatch. */
  lemma {:induction false} PanicStep(ps: seq<ParsedInstruction>, i: nat, events: seq<Event>)
    requires i < |ps| && Dispatched(ps[..i]) == Done(events) && Panics(RouteOf(ps[i]))
    ensures Dispatched(ps[..i + 1]) == Panicked(events)
  {
    DispatchedStep(ps, i, events, RouteOf(ps[i]));
  }

  /**
   * The first panic, whether in a classifier or in a handler, ends the
   * dispatch with the events fired before it; no later instruction fires.
   */
  lemma {:induction false} FirstPanicStops(ps: seq<ParsedInstruction>, k: nat)
    requires k < |ps| && Panics(RouteOf(ps[k])) && NoPanicBefore(ps, k)
    ensures Dispatched(ps) == Panicked(Fired(ps[..k]))
  {
    NoPanicPrefixDone(ps, k);
    PanicStep(ps, k, Fired(ps[..k]));
    DispatchedPanickedPrefix(ps, k + 1);
  }

  /** The dispatch loop: handlers fire in order until a classifier or a handler panics. */
  method DispatchAll(parsed: seq<ParsedInstruction>) returns (d: Dispatch)
    ensures d == Dispatched(parsed)
  {
    var events: seq<Event> := [];
    for i := 0 to |parsed|
      invariant Dispatched(parsed[..i]) == Done(events)
    {
      var route := RouteOf(parsed[i]);
      DispatchedStep(parsed, i, events, route);
      match route
      case NoHandler =>
      case Fire(h) =>
        events := events + [Event(h, parsed[i].ix)];
      case HandlerPanic(_) =>
        DispatchedPanickedPrefix(parsed, i + 1);
        return Panicked(events);
      case ClassifierPanic =>
        DispatchedPanickedPrefix(parsed, i + 1);
        return Panicked(events);
    }
    assert parsed[..|parsed|] == parsed;
    return Done(events);
  }

  /**
   * `handle_transaction_notification`: panics without a meta, on a
   * non-JSON transaction and on a non-parsed message; otherwise collects the
   * outer instructions, then the inner groups when there are any, and
   * dispatches the parsed instructions in order.
   */
  method HandleTransactionNotification(n: Notification) returns (o: NotificationOutcome)
    ensures o.Processed? <==> n.meta.Some? && n.transaction.JsonTransaction? && n.transaction.message.ParsedMessage?
    ensures n.meta.None? ==> o == Rejected(MissingMeta)
    ensures n.meta.Some? && n.transaction.BinaryTransaction? ==> o == Rejected(UnsupportedTransactionEncoding)
    ensures (n.meta.Some? && n.transaction.JsonTransaction? && n.transaction.message.RawMessage?)
              ==> o == Rejected(UnsupportedMessageEncoding)
    ensures o.Processed? ==> (
              && n.meta.Some? && n.transaction.JsonTransaction? && n.transaction.message.ParsedMessage?
              && var flat := Flatten(n.transaction.message.instructions, n.meta.value.innerInstructions);
                 o.compiled == CompiledOf(flat) && o.parsed == ParsedOf(flat) && o.dispatch == Dispatched(o.parsed))
  {
    if n.meta.None? {
      return Rejected(MissingMeta);
    }
    var meta := n.meta.value;
    if n.transaction.BinaryTransaction? {
      return Rejected(UnsupportedTransactionEncoding);
    }
    var message := n.transaction.message;
    if message.RawMessage? {
      return Rejected(UnsupportedMessageEncoding);
    }
    var compiled, parsed := CollectAll(message.instructions, meta.innerInstructions);
    var dispatch := DispatchAll(parsed);
    return Processed(compiled, parsed, dispatch);
  }
}
