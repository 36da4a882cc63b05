/**
 * The application dispatcher of js/dispatcher/appDispatcher.js: an ordered
 * registry of callbacks, a `dispatching` flag with a FIFO queue of pending
 * payloads so that only one dispatch cycle runs at a time, the renderer-side
 * routing rule, and the hub-side registrant callbacks and payload enrichment.
 *
 * Callbacks are identities; a dispatch cycle records, in `trace`, that each
 * callback was called and that its completion promise was resolved.
 * The `setImmediate` hop and the cargo worker runs are explicit `Step` calls.
 */
module Dispatch {
  import opened Wrappers
  import opened BatchCargo
  import opened Splices

  /** The three wirings the module chooses when it is loaded. */
  datatype ProcessType =
    | Browser
      /** A renderer; `onExtensionPage` is `window.location.protocol === 'chrome-extension:'`. */
    | Renderer(currentWindowId: int, onExtensionPage: bool)
    | ExtensionPage

  /** The addressing fields of `payload.queryInfo` (or of `payload.frameProps`) the dispatcher reads and writes. */
  datatype QueryInfo = QueryInfo(windowId: Option<int>, alreadyHandledByRenderer: Option<bool>)

  /** An action payload; its other fields are carried opaquely and are not modelled. */
  datatype Payload = Payload(
    actionType: Option<string>,
    queryInfo: Option<QueryInfo>,
    frameProps: Option<QueryInfo>,
    senderWindowId: Option<int>,
    senderTabId: Option<int>)

  /** JavaScript truthiness of `queryInfo.windowId`: absent and 0 are falsy. */
  predicate HasWindowId(q: QueryInfo)
  {
    q.windowId.Some? && q.windowId.value != 0
  }

  /** A registered callback: a store's handler, or the hub's callback for one renderer. */
  datatype Callback = StoreCallback(name: string) | RegistrantCallback(serial: nat)

  /** What a dispatch cycle does, in order: call a callback, resolve the promise of the callback at an index. */
  datatype Event = Call(callback: Callback, payload: Payload) | Resolve(index: nat, payload: Payload)

  /** Messages a process sends over IPC. */
  datatype IpcMessage = RegisterRequest | DispatchAction(batch: seq<Payload>)

  /**
   * Why a call throws: a payload without an action type, or `process.type`
   * read in an extension page, where there is no `process` global.
   */
  datatype DispatchError = UndefinedAction | NoProcessGlobal

  const DispatchBatchSize: nat := 200
  const RegistrantBatchSize: nat := 20

  // ---------------------------------------------------------------------------
  // The callback registry

  /** `Array.prototype.indexOf`: the first position of `x`, or -1. */
  function IndexOf(s: seq<Callback>, x: Callback): (i: int)
    ensures -1 <= i < |s|
    ensures i == -1 <==> x !in s
    ensures 0 <= i ==> s[i] == x && x !in s[..i]
  {
    if s == [] then -1
    else if s[0] == x then 0
    else
      var j := IndexOf(s[1..], x);
      assert s[1..] == s[1..][..|s[1..]|];
      if j == -1 then -1
      else
        assert s[..j + 1] == [s[0]] + s[1..][..j];
        j + 1
  }

  /** The registry after removing the first occurrence of `x`, if any. */
  function RemoveFirst(s: seq<Callback>, x: Callback): seq<Callback>
  {
    if s == [] then []
    else if s[0] == x then s[1..]
    else [s[0]] + RemoveFirst(s[1..], x)
  }

  /** Removing a callback that is not registered changes nothing. */
  lemma {:induction false} RemoveFirstAbsent(s: seq<Callback>, x: Callback)
    requires x !in s
    ensures RemoveFirst(s, x) == s
  {
    if s != [] {
      assert x !in s[1..];
      RemoveFirstAbsent(s[1..], x);
    }
  }

  /**
   * Removing a registered callback is the splice at `indexOf`: exactly that one
   * position goes and the others keep their relative order.
   */
  lemma {:induction false} RemoveFirstIsSplice(s: seq<Callback>, x: Callback)
    requires x in s
    ensures RemoveFirst(s, x) == s[..IndexOf(s, x)] + s[IndexOf(s, x) + 1..]
  {
    if s[0] != x {
      var t := s[1..];
      assert x in t;
      RemoveFirstIsSplice(t, x);
      var j := IndexOf(t, x);
      assert IndexOf(s, x) == j + 1;
      assert s[..j + 1] == [s[0]] + t[..j];
      assert s[j + 2..] == t[j + 1..];
      AppendAssoc([s[0]], t[..j], t[j + 1..]);
    }
  }

  /** Unregistering removes one copy of the callback and keeps every other registration. */
  lemma RemoveFirstMultiset(s: seq<Callback>, x: Callback)
    ensures multiset(RemoveFirst(s, x)) == multiset(s) - multiset{x}
  {
    if x in s {
      RemoveFirstIsSplice(s, x);
      MultisetWithout(s, IndexOf(s, x));
    } else {
      RemoveFirstAbsent(s, x);
      assert multiset(s)[x] == 0;
    }
  }

  // ---------------------------------------------------------------------------
  // One dispatch cycle

  /**
   * The events of one cycle over the callbacks `cbs`: callback i is called with
   * the payload, then promise i is resolved with it.
   */
  function CycleTrace(cbs: seq<Callback>, p: Payload): seq<Event>
  {
    seq(2 * |cbs|, j requires 0 <= j < 2 * |cbs| => if j % 2 == 0 then Call(cbs[j / 2], p) else Resolve(j / 2, p))
  }

  /** The promise table while callback `i` of `n` runs: exactly promises 0 .. i-1 are resolved. */
  function ResolvedPrefix(n: nat, i: nat): seq<bool>
  {
    seq(n, j => j < i)
  }

  /**
   * `waitFor(indexes)` is `Promise.all` over `promises[index]`: an index with no
   * promise reads as `undefined`, which `Promise.all` counts as settled.
   */
  predicate WaitForSettled(promises: seq<bool>, indexes: seq<int>)
  {
    forall k :: 0 <= k < |indexes| && 0 <= indexes[k] < |promises| ==> promises[indexes[k]]
  }

  /**
   * While callback `i` of `n` runs, `waitFor` has settled exactly when every
   * awaited callback that exists has an index below `i`, that is, has already returned.
   */
  lemma WaitForDuringCycle(n: nat, i: nat, indexes: seq<int>)
    requires i <= n
    ensures WaitForSettled(ResolvedPrefix(n, i), indexes)
        <==> forall k :: 0 <= k < |indexes| && 0 <= indexes[k] < n ==> indexes[k] < i
  {
  }

  /** The promise table of `n` callbacks as the events `t` leave it: promise j is resolved once `Resolve(j, p)` has occurred. */
  function ResolvedIn(t: seq<Event>, p: Payload, n: nat): seq<bool>
  {
    seq(n, j requires 0 <= j < n => Resolve(j, p) in t)
  }

  /**
   * In a cycle's trace, callback i is called at position 2i, and the events
   * before that call have resolved exactly the promises of callbacks 0 .. i-1.
   */
  lemma CallSeesEarlierResolves(cbs: seq<Callback>, p: Payload, i: nat)
    requires i < |cbs|
    ensures CycleTrace(cbs, p)[2 * i] == Call(cbs[i], p)
    ensures ResolvedIn(CycleTrace(cbs, p)[..2 * i], p, |cbs|) == ResolvedPrefix(|cbs|, i)
  {
    var t := CycleTrace(cbs, p);
    var before := t[..2 * i];
    forall j | 0 <= j < |cbs|
      ensures (Resolve(j, p) in before) == (j < i)
    {
      if j < i {
        assert before[2 * j + 1] == Resolve(j, p);
      }
      if Resolve(j, p) in before {
        var k :| 0 <= k < |before| && before[k] == Resolve(j, p);
        assert k % 2 == 1 && k / 2 == j;
      }
    }
  }

  /**
   * A `waitFor` made by callback i of a cycle settles exactly when every
   * awaited callback that exists comes before i in the cycle, that is, has
   * already been called and has returned.
   */
  lemma WaitForInsideCallback(cbs: seq<Callback>, p: Payload, i: nat, indexes: seq<int>)
    requires i < |cbs|
    ensures WaitForSettled(ResolvedIn(CycleTrace(cbs, p)[..2 * i], p, |cbs|), indexes)
        <==> forall k :: 0 <= k < |indexes| && 0 <= indexes[k] < |cbs| ==> indexes[k] < i
  {
    CallSeesEarlierResolves(cbs, p, i);
    WaitForDuringCycle(|cbs|, i, indexes);
  }

  // ---------------------------------------------------------------------------
  // Routing in `dispatchInternal`

  /** Whether local callbacks run, and what (if anything) is pushed to the outbound IPC cargo. */
  datatype Routing = Routing(runLocally: bool, relayed: Option<Payload>)

  /** The payload as a renderer forwards it after running it locally: the flag records whether it was addressed here. */
  function MarkHandled(p: Payload, current: int): Payload
  {
    match p.queryInfo
    case None => p
    case Some(q) => p.(queryInfo := Some(q.(alreadyHandledByRenderer := Some(q.windowId == Some(current)))))
  }

  function Route(pt: ProcessType, p: Payload): (r: Routing)
    // the hub and extension-page processes run every payload locally and relay nothing
    ensures !pt.Renderer? ==> r == Routing(true, None)
    // every renderer payload is forwarded to the hub
    ensures pt.Renderer? ==> r.relayed.Some?
    // an extension page in a renderer never runs local callbacks
    ensures pt.Renderer? && pt.onExtensionPage ==> !r.runLocally && r.relayed == Some(p)
    // otherwise: local callbacks run iff the payload is not addressed to some other window
    ensures pt.Renderer? && !pt.onExtensionPage ==>
      (r.runLocally <==>
        p.queryInfo.None? || !HasWindowId(p.queryInfo.value) || p.queryInfo.value.windowId == Some(pt.currentWindowId))
    // what is forwarded differs from the payload at most in the already-handled flag
    ensures r.relayed.Some? ==>
      && r.relayed.value.actionType == p.actionType
      && r.relayed.value.queryInfo.Some? == p.queryInfo.Some?
      && (p.queryInfo.Some? ==> r.relayed.value.queryInfo.value.windowId == p.queryInfo.value.windowId)
      && r.relayed.value.(queryInfo := p.queryInfo) == p
    // the flag is set only after a local run, to whether the payload was addressed to this window
    ensures pt.Renderer? && r.runLocally && p.queryInfo.Some? ==>
      r.relayed.value.queryInfo.value.alreadyHandledByRenderer == Some(p.queryInfo.value.windowId == Some(pt.currentWindowId))
    ensures !r.runLocally ==> r.relayed == Some(p)
  {
    match pt
    case Renderer(current, onExtensionPage) =>
      if onExtensionPage then Routing(false, Some(p))
      else if p.queryInfo.None? || !HasWindowId(p.queryInfo.value) || p.queryInfo.value.windowId == Some(current) then
        Routing(true, Some(MarkHandled(p, current)))
      else
        Routing(false, Some(p))
    case _ => Routing(true, None)
  }

  /** What a payload's routing pushes onto the outbound IPC cargo. */
  function RelayOf(pt: ProcessType, p: Payload): seq<Payload>
  {
    match Route(pt, p).relayed
    case Some(q) => [q]
    case None => []
  }

  /** The outbound IPC pushes for a sequence of payloads, in order. */
  function Relays(pt: ProcessType, ps: seq<Payload>): seq<Payload>
  {
    if ps == [] then [] else Relays(pt, ps[..|ps| - 1]) + RelayOf(pt, ps[|ps| - 1])
  }

  lemma RelaysSnoc(pt: ProcessType, ps: seq<Payload>, p: Payload)
    ensures Relays(pt, ps + [p]) == Relays(pt, ps) + RelayOf(pt, p)
  {
    assert (ps + [p])[..|ps|] == ps;
  }

  /** Forwarding is compositional: the relays of two runs back to back are the relays of each, in order. */
  lemma {:induction false} RelaysAppend(pt: ProcessType, a: seq<Payload>, b: seq<Payload>)
    ensures Relays(pt, a + b) == Relays(pt, a) + Relays(pt, b)
    decreases |b|
  {
    if b == [] {
      assert a + b == a;
    } else {
      var init, last := b[..|b| - 1], b[|b| - 1];
      RelaysAppend(pt, a, init);
      assert (a + b)[..|a + b| - 1] == a + init;
      assert (a + b)[|a + b| - 1] == last;
      AppendAssoc(Relays(pt, a), Relays(pt, init), RelayOf(pt, last));
    }
  }

  /**
   * A renderer forwards every payload it dispatches, one for one and in order,
   * each with its own action type; the hub and extension pages forward nothing.
   */
  lemma {:induction false} RelaysPreserveOrder(pt: ProcessType, ps: seq<Payload>)
    ensures !pt.Renderer? ==> Relays(pt, ps) == []
    ensures pt.Renderer? ==> |Relays(pt, ps)| == |ps|
    ensures pt.Renderer? ==> forall i :: 0 <= i < |ps| ==> Relays(pt, ps)[i].actionType == ps[i].actionType
  {
    if ps != [] {
      var init := ps[..|ps| - 1];
      RelaysPreserveOrder(pt, init);
      if pt.Renderer? {
        forall i | 0 <= i < |init|
          ensures Relays(pt, ps)[i].actionType == ps[i].actionType
        {
          assert init[i] == ps[i];
        }
      }
    }
  }

  /** The events one payload's `dispatchInternal` adds to the trace. */
  function LocalTrace(pt: ProcessType, cbs: seq<Callback>, p: Payload): seq<Event>
  {
    if Route(pt, p).runLocally then CycleTrace(cbs, p) else []
  }

  /** The events of a batch of payloads run one after the other: whole cycles, never interleaved. */
  function BatchTrace(pt: ProcessType, cbs: seq<Callback>, ps: seq<Payload>): seq<Event>
  {
    if ps == [] then [] else BatchTrace(pt, cbs, ps[..|ps| - 1]) + LocalTrace(pt, cbs, ps[|ps| - 1])
  }

  lemma BatchTraceSnoc(pt: ProcessType, cbs: seq<Callback>, ps: seq<Payload>, p: Payload)
    ensures BatchTrace(pt, cbs, ps + [p]) == BatchTrace(pt, cbs, ps) + LocalTrace(pt, cbs, p)
  {
    assert (ps + [p])[..|ps|] == ps;
  }

  /**
   * Running payload `i` of a batch extends what was recorded after the first
   * `i` (events `t0` and relays `q0` from before the batch) by its own events and relays.
   */
  lemma RunOneMore(pt: ProcessType, cbs: seq<Callback>, ps: seq<Payload>, i: nat, t0: seq<Event>, q0: seq<Payload>)
    requires i < |ps|
    ensures t0 + BatchTrace(pt, cbs, ps[..i + 1]) == (t0 + BatchTrace(pt, cbs, ps[..i])) + LocalTrace(pt, cbs, ps[i])
    ensures q0 + Relays(pt, ps[..i + 1]) == (q0 + Relays(pt, ps[..i])) + RelayOf(pt, ps[i])
  {
    assert ps[..i + 1] == ps[..i] + [ps[i]];
    BatchTraceSnoc(pt, cbs, ps[..i], ps[i]);
    RelaysSnoc(pt, ps[..i], ps[i]);
  }

  /** The payloads the next `Step` runs: the one handed to `setImmediate`, else the next cargo batch. */
  function NextBatch(scheduled: Option<Payload>, queue: seq<Payload>): seq<Payload>
  {
    if scheduled.Some? then [scheduled.value] else queue[..Min(DispatchBatchSize, |queue|)]
  }

  /** The `DispatchAction` batches among sent IPC messages, in order. */
  function SentBatches(sent: seq<IpcMessage>): seq<seq<Payload>>
  {
    if sent == [] then []
    else
      var last := sent[|sent| - 1];
      SentBatches(sent[..|sent| - 1]) + (if last.DispatchAction? then [last.batch] else [])
  }

  /**
   * The outbound IPC traffic of a process that has started the payloads `ran`:
   * the batches already sent, followed by what waits in the outbound queue,
   * are the forwarding of those payloads in order, at most 200 per message.
   */
  ghost predicate ForwardedSoFar(pt: ProcessType, ran: seq<Payload>, sent: seq<IpcMessage>, queue: seq<Payload>)
  {
    Conveyed(SentBatches(sent), queue, Relays(pt, ran), DispatchBatchSize)
  }

  lemma SentBatchesSnoc(sent: seq<IpcMessage>, m: IpcMessage)
    ensures SentBatches(sent + [m]) == SentBatches(sent) + (if m.DispatchAction? then [m.batch] else [])
  {
    assert (sent + [m])[..|sent|] == sent;
  }

  /** Running more payloads keeps the forwarding in step: their relays join the outbound queue. */
  lemma ForwardRun(pt: ProcessType, ran: seq<Payload>, sent: seq<IpcMessage>, queue: seq<Payload>, ps: seq<Payload>)
    requires ForwardedSoFar(pt, ran, sent, queue)
    ensures ForwardedSoFar(pt, ran + ps, sent, queue + Relays(pt, ps))
  {
    RelaysAppend(pt, ran, ps);
    ConveyedPush(SentBatches(sent), queue, Relays(pt, ran), DispatchBatchSize, Relays(pt, ps));
  }

  /** A registration request is not a forwarded batch and leaves the forwarding as it was. */
  lemma ForwardRegister(pt: ProcessType, ran: seq<Payload>, sent: seq<IpcMessage>, queue: seq<Payload>)
    requires ForwardedSoFar(pt, ran, sent, queue)
    ensures ForwardedSoFar(pt, ran, sent + [RegisterRequest], queue)
  {
    SentBatchesSnoc(sent, RegisterRequest);
    assert SentBatches(sent) + [] == SentBatches(sent);
  }

  /**
   * Sending the next outbound batch keeps the forwarding in step: the oldest
   * (at most 200) queued payloads become one `DispatchAction` message.
   */
  lemma ForwardFlush(pt: ProcessType, ran: seq<Payload>, sent: seq<IpcMessage>, c: Cargo<Payload>)
    requires c.limit == DispatchBatchSize
    requires ForwardedSoFar(pt, ran, sent, c.queue)
    ensures var taken := c.Take();
      && (c.queue == [] <==> taken.0 == [])
      && ForwardedSoFar(pt, ran, if taken.0 == [] then sent else sent + [DispatchAction(taken.0)], taken.1.queue)
  {
    ConveyedTake(c, SentBatches(sent), Relays(pt, ran));
    SentBatchesSnoc(sent, DispatchAction(c.Take().0));
  }

  // ---------------------------------------------------------------------------
  // Hub side: enriching payloads received from a renderer

  /** The renderer's `webContents` hosting the sender, if the sender is an extension's contents. */
  datatype HostContents = HostContents(window: Option<int>)

  /** `event.sender` as `dispatchEventPayload` sees it; `window` is `BrowserWindow.fromWebContents(sender)`. */
  datatype Sender = Sender(id: int, isDestroyed: bool, window: Option<int>, hostWebContents: Option<HostContents>)

  /** `BrowserWindow.fromWebContents(hostWebContents || sender)`. */
  function SenderWindow(s: Sender): Option<int>
  {
    match s.hostWebContents
    case Some(host) => host.window
    case None => s.window
  }

  /** `payload.queryInfo || payload.frameProps || {}`. */
  function SourceQueryInfo(p: Payload): QueryInfo
  {
    if p.queryInfo.Some? then p.queryInfo.value
    else if p.frameProps.Some? then p.frameProps.value
    else QueryInfo(None, None)
  }

  /** `dispatchEventPayload`'s changes to a payload before it is dispatched on the hub. */
  function EnrichPayload(sender: Sender, p: Payload): (r: Payload)
    ensures r.actionType == p.actionType && r.frameProps == p.frameProps
    // the sender's tab id is recorded whenever the sender is alive
    ensures !sender.isDestroyed ==> r.senderTabId == Some(sender.id)
    ensures !sender.isDestroyed ==> r.queryInfo.Some?
    ensures !sender.isDestroyed && SenderWindow(sender).Some? ==> r.senderWindowId == SenderWindow(sender)
    ensures !sender.isDestroyed && SenderWindow(sender).None? ==> r.senderWindowId == p.senderWindowId
    // a destroyed sender adds nothing but the empty queryInfo written by `payload.queryInfo = {}`
    ensures sender.isDestroyed ==>
      r == if p.queryInfo.None? && p.frameProps.None? then p.(queryInfo := Some(QueryInfo(None, None))) else p
    // the target window is filled in only for an extension's message that names none
    ensures r.queryInfo.Some? && r.queryInfo.value.windowId != SourceQueryInfo(p).windowId ==>
      && sender.hostWebContents.Some?
      && !HasWindowId(SourceQueryInfo(p))
      && r.queryInfo.value.windowId == SenderWindow(sender)
    ensures !sender.isDestroyed && sender.hostWebContents.Some? && !HasWindowId(SourceQueryInfo(p)) && SenderWindow(sender).Some? ==>
      r.queryInfo.value.windowId == SenderWindow(sender)
    ensures r.queryInfo.Some? ==>
      r.queryInfo.value.alreadyHandledByRenderer == SourceQueryInfo(p).alreadyHandledByRenderer
  {
    var q := SourceQueryInfo(p);
    var base := if p.queryInfo.None? && p.frameProps.None? then p.(queryInfo := Some(q)) else p;
    if sender.isDestroyed then base
    else
      var win := SenderWindow(sender);
      var q' := if sender.hostWebContents.Some? && !HasWindowId(q) && win.Some? then q.(windowId := win) else q;
      base.(queryInfo := Some(q'),
            senderWindowId := if win.Some? then win else base.senderWindowId,
            senderTabId := Some(sender.id))
  }

  function EnrichAll(sender: Sender, ps: seq<Payload>): (r: seq<Payload>)
    ensures |r| == |ps|
    ensures forall i :: 0 <= i < |ps| ==> r[i] == EnrichPayload(sender, ps[i])
  {
    if ps == [] then [] else EnrichAll(sender, ps[..|ps| - 1]) + [EnrichPayload(sender, ps[|ps| - 1])]
  }

  lemma EnrichOneMore(sender: Sender, ps: seq<Payload>, i: nat, a0: seq<Payload>)
    requires i < |ps|
    ensures a0 + EnrichAll(sender, ps[..i + 1]) == (a0 + EnrichAll(sender, ps[..i])) + [EnrichPayload(sender, ps[i])]
  {
    assert ps[..i + 1] == ps[..i] + [ps[i]];
    assert ps[..i + 1][..i] == ps[..i];
  }

  /** The position of the first payload without an action type, or the length if there is none. */
  function FirstUndefined(ps: seq<Payload>): (k: nat)
    ensures k <= |ps|
    ensures forall i :: 0 <= i < k ==> ps[i].actionType.Some?
    ensures k < |ps| ==> ps[k].actionType.None?
  {
    if ps == [] then 0
    else if ps[0].actionType.None? then 0
    else 1 + FirstUndefined(ps[1..])
  }

  /** A payload at or before the first undefined one is that one exactly when it has no action type. */
  lemma FirstUndefinedStep(ps: seq<Payload>, i: nat)
    requires i < |ps| && i <= FirstUndefined(ps)
    ensures ps[i].actionType.None? ==> FirstUndefined(ps) == i
    ensures ps[i].actionType.Some? ==> i + 1 <= FirstUndefined(ps)
  {
  }

  // ---------------------------------------------------------------------------
  // The dispatcher object

  class AppDispatcher {
    const processType: ProcessType

    var callbacks: seq<Callback>
    /** One flag per callback while a cycle runs: has its promise been resolved? */
    var promises: seq<bool>
    var dispatching: bool
    /** The payload whose `dispatchInternal` was handed to `setImmediate` and has not run yet. */
    var scheduled: Option<Payload>
    /** `shutdown()` has replaced `dispatch` by a no-op. */
    var shutDown: bool
    /** `dispatchCargo`: payloads dispatched while a cycle is running. */
    var dispatchCargo: Cargo<Payload>
    /** `ipcCargo`: payloads a renderer forwards to the hub. */
    var ipcCargo: Cargo<Payload>
    /** Everything the dispatch cycles did, in order. */
    var trace: seq<Event>
    /** IPC messages this process sent. */
    var ipcSent: seq<IpcMessage>
    /** How many renderers have registered with the hub; names their callbacks. */
    var registrantCount: nat

    /** Every payload `dispatch` accepted, in acceptance order. */
    ghost var accepted: seq<Payload>
    /** Every payload whose `dispatchInternal` has started, in order. */
    ghost var started: seq<Payload>

    /** The payloads accepted but not yet run: the scheduled one first, then the queue. */
    ghost function Pending(): seq<Payload>
      reads this`scheduled, this`dispatchCargo
    {
      (if scheduled.Some? then [scheduled.value] else []) + dispatchCargo.queue
    }

    /**
     * Between steps: no cycle is half done, `dispatching` holds exactly while
     * something is pending, and payloads run in the order they were accepted.
     */
    ghost predicate Valid()
      reads this`dispatchCargo, this`promises, this`dispatching, this`scheduled, this`accepted, this`started
    {
      && dispatchCargo.limit == DispatchBatchSize
      && promises == []
      && (dispatching <==> Pending() != [])
      && accepted == started + Pending()
    }

    /**
     * The IPC messages sent so far, followed by the outbound queue, are the
     * forwarding of the payloads that have run, in order, at most 200 per message.
     */
    ghost predicate Forwarding()
      reads this`started, this`ipcSent, this`ipcCargo
    {
      && ipcCargo.limit == DispatchBatchSize
      && ForwardedSoFar(processType, started, ipcSent, ipcCargo.queue)
    }

    constructor (processType: ProcessType)
      ensures Valid() && Forwarding()
      ensures this.processType == processType
      ensures callbacks == [] && !dispatching && !shutDown && trace == [] && ipcSent == []
      ensures accepted == [] && started == [] && ipcCargo.queue == [] && registrantCount == 0
    {
      this.processType := processType;
      dispatchCargo := Cargo(DispatchBatchSize, []);
      ipcCargo := Cargo(DispatchBatchSize, []);
      callbacks := [];
      promises := [];
      dispatching := false;
      scheduled := None;
      shutDown := false;
      trace := [];
      ipcSent := [];
      registrantCount := 0;
      accepted := [];
      started := [];
    }

    /**
     * `register`: append the callback and return its index; a renderer also
     * asks the hub to register it. In an extension page the test of
     * `process.type` throws before anything is appended.
     */
    method Register(callback: Callback) returns (r: Outcome<DispatchError>, index: int)
      requires Valid() && Forwarding()
      modifies this`callbacks, this`ipcSent
      ensures Valid() && Forwarding()
      ensures r == if processType.ExtensionPage? then Fail(NoProcessGlobal) else Pass
      ensures r.Fail? ==> callbacks == old(callbacks) && ipcSent == old(ipcSent)
      ensures r.Pass? ==> callbacks == old(callbacks) + [callback] && index == |callbacks| - 1 && callbacks[index] == callback
      ensures ipcSent == if processType.Renderer? then old(ipcSent) + [RegisterRequest] else old(ipcSent)
    {
      index := -1;
      if processType.ExtensionPage? {
        return Fail(NoProcessGlobal), index;
      }
      if processType.Renderer? {
        ForwardRegister(processType, started, ipcSent, ipcCargo.queue);
        ipcSent := ipcSent + [RegisterRequest];
      }
      callbacks := callbacks + [callback];
      index := |callbacks| - 1;
      r := Pass;
    }

    /** `unregister`: remove the first occurrence of the callback, if there is one. */
    method Unregister(callback: Callback)
      requires Valid()
      modifies this`callbacks
      ensures Valid()
      ensures callbacks == RemoveFirst(old(callbacks), callback)
    {
      var index := IndexOf(callbacks, callback);
      if index != -1 {
        RemoveFirstIsSplice(callbacks, callback);
        callbacks := callbacks[..index] + callbacks[index + 1..];
      } else {
        RemoveFirstAbsent(callbacks, callback);
      }
    }

    /**
     * `dispatch`: a payload without an action type is refused and changes
     * nothing; otherwise it is queued behind a running cycle, or starts one
     * on the next turn. After `shutdown` every call is absorbed.
     */
    method Dispatch(payload: Payload) returns (r: Outcome<DispatchError>)
      requires Valid()
      modifies this`dispatching, this`scheduled, this`accepted, this`dispatchCargo
      ensures Valid()
      ensures r == if !shutDown && payload.actionType.None? then Fail(UndefinedAction) else Pass
      ensures r.Fail? || shutDown ==> accepted == old(accepted) && Pending() == old(Pending()) && dispatching == old(dispatching)
      ensures r.Pass? && !shutDown ==>
        && dispatching
        && accepted == old(accepted) + [payload]
        && Pending() == old(Pending()) + [payload]
        && (!old(dispatching) ==> scheduled == Some(payload))
    {
      if shutDown {
        r := Pass;
      } else if payload.actionType.None? {
        r := Fail(UndefinedAction);
      } else {
        if dispatching {
          dispatchCargo := dispatchCargo.Push(payload);
        } else {
          dispatching := true;
          scheduled := Some(payload);
        }
        accepted := accepted + [payload];
        r := Pass;
      }
    }

    /**
     * `dispatchToOwnRegisteredCallbacks`: build one unresolved promise per
     * callback, call each callback in order and resolve its promise, then
     * drop the promise table.
     */
    method DispatchToOwnRegisteredCallbacks(payload: Payload)
      requires promises == []
      modifies this`promises, this`trace
      ensures promises == []
      ensures trace == old(trace) + CycleTrace(callbacks, payload)
    {
      promises := seq(|callbacks|, _ => false);
      var i := 0;
      while i < |callbacks|
        invariant 0 <= i <= |callbacks|
        invariant promises == ResolvedPrefix(|callbacks|, i)
        invariant trace == old(trace) + CycleTrace(callbacks[..i], payload)
      {
        assert callbacks[..i + 1][..i] == callbacks[..i];
        trace := trace + [Call(callbacks[i], payload)];
        promises := promises[i := true];
        trace := trace + [Resolve(i, payload)];
        i := i + 1;
      }
      assert callbacks[..i] == callbacks;
      promises := [];
    }

    /** `doneDispatching`: the flag drops only when the pending queue is idle. */
    method DoneDispatching()
      modifies this`dispatching
      ensures dispatching == if dispatchCargo.Idle() then false else old(dispatching)
    {
      if dispatchCargo.Idle() {
        dispatching := false;
      }
    }

    /**
     * `dispatchInternal`: run the local callbacks when the routing rule says so,
     * signal completion, and in a renderer forward the payload to the hub.
     */
    method DispatchInternal(payload: Payload, signalDone: bool)
      requires promises == []
      modifies this`promises, this`trace, this`dispatching, this`ipcCargo
      ensures promises == []
      ensures trace == old(trace) + LocalTrace(processType, callbacks, payload)
      ensures ipcCargo.queue == old(ipcCargo.queue) + RelayOf(processType, payload)
      ensures ipcCargo.limit == old(ipcCargo.limit)
      ensures dispatching == if signalDone && dispatchCargo.Idle() then false else old(dispatching)
    {
      if processType.Renderer? {
        if processType.onExtensionPage {
          if signalDone { DoneDispatching(); }
          ipcCargo := ipcCargo.Push(payload);
          return;
        }
        var forwarded := payload;
        var q := payload.queryInfo;
        var current := processType.currentWindowId;
        if q.None? || !HasWindowId(q.value) || q.value.windowId == Some(current) {
          DispatchToOwnRegisteredCallbacks(payload);
          if q.Some? {
            forwarded := payload.(queryInfo := Some(q.value.(alreadyHandledByRenderer := Some(q.value.windowId == Some(current)))));
          }
        }
        if signalDone { DoneDispatching(); }
        ipcCargo := ipcCargo.Push(forwarded);
        return;
      }
      DispatchToOwnRegisteredCallbacks(payload);
      if signalDone { DoneDispatching(); }
    }

    /**
     * One turn of the event loop: the cycle handed to `setImmediate` runs
     * first; otherwise one run of the `dispatchCargo` worker takes up to 200
     * queued payloads and runs them in order. Either way `doneDispatching`
     * follows.
     */
    method Step()
      requires Valid() && Forwarding()
      modifies this`promises, this`trace, this`dispatching, this`scheduled, this`started, this`dispatchCargo, this`ipcCargo
      ensures Valid() && Forwarding()
      ensures started == old(started) + NextBatch(old(scheduled), old(dispatchCargo.queue))
      ensures trace == old(trace) + BatchTrace(processType, callbacks, NextBatch(old(scheduled), old(dispatchCargo.queue)))
      ensures ipcCargo.queue == old(ipcCargo.queue) + Relays(processType, NextBatch(old(scheduled), old(dispatchCargo.queue)))
      ensures old(dispatching) ==> |Pending()| < |old(Pending())|
    {
      ghost var batch := NextBatch(scheduled, dispatchCargo.queue);
      ghost var ipcQueue0, started0 := ipcCargo.queue, started;
      if scheduled.Some? {
        RunScheduled();
      } else if dispatchCargo.queue != [] {
        RunQueuedBatch();
      } else {
        assert batch == [];
      }
      ForwardRun(processType, started0, ipcSent, ipcQueue0, batch);
    }

    /** The `setImmediate` callback: `dispatchInternal` on the scheduled payload, with `doneDispatching` as its completion. */
    method RunScheduled()
      requires Valid() && scheduled.Some?
      modifies this`promises, this`trace, this`dispatching, this`scheduled, this`started, this`ipcCargo
      ensures Valid() && scheduled.None? && ipcCargo.limit == old(ipcCargo.limit)
      ensures var batch := [old(scheduled).value];
        && started == old(started) + batch
        && trace == old(trace) + BatchTrace(processType, callbacks, batch)
        && ipcCargo.queue == old(ipcCargo.queue) + Relays(processType, batch)
    {
      var p := scheduled.value;
      AppendAssoc(started, [p], dispatchCargo.queue);
      scheduled := None;
      started := started + [p];
      DispatchInternal(p, true);
      assert Pending() == dispatchCargo.queue;
      assert [p] == [] + [p];
      RelaysSnoc(processType, [], p);
      BatchTraceSnoc(processType, callbacks, [], p);
    }

    /** One run of the `dispatchCargo` worker: up to 200 payloads, then `doneDispatching`. */
    method RunQueuedBatch()
      requires Valid() && scheduled.None? && dispatchCargo.queue != []
      modifies this`promises, this`trace, this`dispatching, this`started, this`dispatchCargo, this`ipcCargo
      ensures Valid() && ipcCargo.limit == old(ipcCargo.limit)
      ensures var batch := old(dispatchCargo.queue)[..Min(DispatchBatchSize, |old(dispatchCargo.queue)|)];
        && started == old(started) + batch
        && trace == old(trace) + BatchTrace(processType, callbacks, batch)
        && ipcCargo.queue == old(ipcCargo.queue) + Relays(processType, batch)
        && dispatchCargo.queue == old(dispatchCargo.queue)[|batch|..]
    {
      ghost var queue0 := dispatchCargo.queue;
      var taken := dispatchCargo.Take();
      var batch := taken.0;
      assert |batch| == Min(DispatchBatchSize, |queue0|);
      assert batch == queue0[..Min(DispatchBatchSize, |queue0|)] && taken.1.queue == queue0[|batch|..] by {
        assert queue0 == batch + taken.1.queue;
      }
      dispatchCargo := taken.1;
      RunInOrder(batch);
      AppendAssoc(started, batch, dispatchCargo.queue);
      started := started + batch;
      DoneDispatching();
      assert Pending() == dispatchCargo.queue;
    }

    /** The worker's loop: `dispatchInternal` on each payload of the batch in turn, without a completion signal. */
    method RunInOrder(batch: seq<Payload>)
      requires promises == []
      modifies this`promises, this`trace, this`dispatching, this`ipcCargo
      ensures promises == [] && dispatching == old(dispatching) && ipcCargo.limit == old(ipcCargo.limit)
      ensures trace == old(trace) + BatchTrace(processType, callbacks, batch)
      ensures ipcCargo.queue == old(ipcCargo.queue) + Relays(processType, batch)
    {
      ghost var trace0, queue0 := trace, ipcCargo.queue;
      for i := 0 to |batch|
        invariant promises == [] && dispatching == old(dispatching) && ipcCargo.limit == old(ipcCargo.limit)
        invariant trace == trace0 + BatchTrace(processType, callbacks, batch[..i])
        invariant ipcCargo.queue == queue0 + Relays(processType, batch[..i])
      {
        RunOneMore(processType, callbacks, batch, i, trace0, queue0);
        DispatchInternal(batch[i], false);
      }
      assert batch[..|batch|] == batch;
    }

    /** Run steps until nothing is pending: every accepted payload has then started, in acceptance order. */
    method Drain()
      requires Valid() && Forwarding()
      modifies this`promises, this`trace, this`dispatching, this`scheduled, this`started, this`dispatchCargo, this`ipcCargo
      ensures Valid() && Forwarding()
      ensures !dispatching && started == accepted
    {
      while dispatching
        invariant Valid() && Forwarding()
        decreases |Pending()|
      {
        Step();
      }
    }

    /**
     * `waitFor` made between cycles: the promise table is empty, so the wait
     * settles at once, whatever it names. This covers only that case; a wait
     * made by a callback during a cycle is `WaitForInsideCallback`.
     */
    method WaitFor(indexes: seq<int>) returns (settled: bool)
      requires Valid()
      ensures settled
    {
      settled := WaitForSettled(promises, indexes);
    }

    /** `shutdown`: from now on `dispatch` is a no-op. */
    method Shutdown()
      modifies this`shutDown
      ensures shutDown
    {
      shutDown := true;
    }

    /** One run of the `ipcCargo` worker: send up to 200 forwarded payloads to the hub as one message. */
    method FlushIpc()
      requires Valid() && Forwarding()
      modifies this`ipcSent, this`ipcCargo
      ensures Valid() && Forwarding()
      ensures ipcCargo.queue == old(ipcCargo.queue)[Min(DispatchBatchSize, |old(ipcCargo.queue)|)..]
      ensures ipcSent == if old(ipcCargo.queue) == [] then old(ipcSent)
                         else old(ipcSent) + [DispatchAction(old(ipcCargo.queue)[..Min(DispatchBatchSize, |old(ipcCargo.queue)|)])]
    {
      ForwardFlush(processType, started, ipcSent, ipcCargo);
      ghost var queue0 := ipcCargo.queue;
      var taken := ipcCargo.Take();
      var batch := taken.0;
      assert |batch| == Min(DispatchBatchSize, |queue0|);
      assert batch == queue0[..|batch|] && taken.1.queue == queue0[|batch|..] by {
        assert queue0 == batch + taken.1.queue;
      }
      ipcCargo := taken.1;
      if batch != [] {
        ipcSent := ipcSent + [DispatchAction(batch)];
      }
    }

    /**
     * `dispatchEventPayload`: the hub enriches a payload received from a
     * renderer with its addressing and sender fields, then dispatches it.
     */
    method DispatchEventPayload(sender: Sender, payload: Payload) returns (r: Outcome<DispatchError>)
      requires Valid()
      modifies this`dispatching, this`scheduled, this`accepted, this`dispatchCargo
      ensures Valid()
      ensures r.Fail? <==> !shutDown && payload.actionType.None?
      ensures accepted == if shutDown || r.Fail? then old(accepted) else old(accepted) + [EnrichPayload(sender, payload)]
    {
      r := Dispatch(EnrichPayload(sender, payload));
    }

    /**
     * The hub's handler for a batch from a renderer: each payload goes through
     * `dispatchEventPayload` in order; the first one without an action type
     * throws, and the rest of the batch is not dispatched.
     */
    method ReceiveBatch(sender: Sender, batch: seq<Payload>) returns (r: Outcome<DispatchError>)
      requires Valid() && processType.Browser?
      modifies this`dispatching, this`scheduled, this`accepted, this`dispatchCargo
      ensures Valid()
      ensures r.Fail? <==> !shutDown && FirstUndefined(batch) < |batch|
      ensures accepted == if shutDown then old(accepted) else old(accepted) + EnrichAll(sender, batch[..FirstUndefined(batch)])
    {
      ghost var k := FirstUndefined(batch);
      ghost var accepted0 := accepted;
      r := Pass;
      var i := 0;
      while i < |batch|
        invariant 0 <= i <= |batch| && Valid() && r == Pass
        invariant shutDown ==> accepted == accepted0
        invariant !shutDown ==> i <= k && accepted == accepted0 + EnrichAll(sender, batch[..i])
      {
        if !shutDown {
          EnrichOneMore(sender, batch, i, accepted0);
          FirstUndefinedStep(batch, i);
        }
        r := DispatchEventPayload(sender, batch[i]);
        if r.Fail? {
          return;
        }
        i := i + 1;
      }
      assert batch[..i] == batch;
    }

    /**
     * The hub's handler for a renderer's registration request: a fresh callback
     * with its own 20-payload cargo is registered for that renderer.
     */
    method RegisterRenderer(sender: Sender) returns (registrant: Registrant)
      requires Valid() && Forwarding() && processType.Browser?
      modifies this`callbacks, this`ipcSent, this`registrantCount
      ensures Valid() && Forwarding() && registrant.Valid() && fresh(registrant)
      ensures registrant.callback == RegistrantCallback(old(registrantCount))
      ensures registrant.peerDestroyed == sender.isDestroyed && registrant.delivered == []
      ensures registrant.cargo.queue == []
      ensures callbacks == old(callbacks) + [registrant.callback]
      ensures registrantCount == old(registrantCount) + 1
    {
      registrant := new Registrant(RegistrantCallback(registrantCount), sender.isDestroyed);
      registrantCount := registrantCount + 1;
      var _, _ := Register(registrant.callback);
    }
  }

  /** The hub's per-renderer closure: its callback, its cargo and what it has sent to the renderer. */
  class Registrant {
    const callback: Callback
    /** `registrantCargo`. */
    var cargo: Cargo<Payload>
    /** `registrant.isDestroyed()`. */
    var peerDestroyed: bool
    /** Batches sent to the renderer, in order. */
    var delivered: seq<seq<Payload>>
    /** Every payload pushed onto the cargo. */
    ghost var received: seq<Payload>
    /** Every batch the cargo's worker has run on, delivered or not. */
    ghost var taken: seq<seq<Payload>>

    /** The cargo's guarantee: the batches taken, then what still waits, are what was pushed, in order, at most 20 at a time. */
    ghost predicate Valid()
      reads this
    {
      && cargo.limit == RegistrantBatchSize
      && Conveyed(taken, cargo.queue, received, RegistrantBatchSize)
    }

    constructor (callback: Callback, peerDestroyed: bool)
      ensures Valid()
      ensures this.callback == callback && this.peerDestroyed == peerDestroyed
      ensures delivered == [] && cargo.queue == [] && received == [] && taken == []
    {
      this.callback := callback;
      this.peerDestroyed := peerDestroyed;
      delivered := [];
      cargo := Cargo(RegistrantBatchSize, []);
      received := [];
      taken := [];
    }

    /**
     * The callback's body for one payload: a destroyed peer, or an exception
     * (`raises`), unregisters the callback; otherwise the payload is queued
     * for the renderer.
     */
    method Handle(d: AppDispatcher, payload: Payload, raises: bool)
      requires Valid() && d.Valid()
      modifies d`callbacks, this`cargo, this`received
      ensures Valid() && d.Valid()
      ensures peerDestroyed || raises ==>
        d.callbacks == RemoveFirst(old(d.callbacks), callback) && cargo == old(cargo) && received == old(received)
      ensures !peerDestroyed && !raises ==>
        d.callbacks == old(d.callbacks) && cargo.queue == old(cargo.queue) + [payload] && received == old(received) + [payload]
    {
      if peerDestroyed || raises {
        d.Unregister(callback);
      } else {
        ConveyedPush(taken, cargo.queue, received, RegistrantBatchSize, [payload]);
        cargo := cargo.Push(payload);
        received := received + [payload];
      }
    }

    /** The renderer crashed: its callback is unregistered at once. */
    method OnCrashed(d: AppDispatcher)
      requires d.Valid()
      modifies d`callbacks
      ensures d.Valid()
      ensures d.callbacks == RemoveFirst(old(d.callbacks), callback)
    {
      d.Unregister(callback);
    }

    /** The renderer's contents were destroyed: its callback is unregistered at once. */
    method OnDestroyed(d: AppDispatcher)
      requires d.Valid()
      modifies this`peerDestroyed, d`callbacks
      ensures d.Valid() && peerDestroyed
      ensures d.callbacks == RemoveFirst(old(d.callbacks), callback)
    {
      peerDestroyed := true;
      d.Unregister(callback);
    }

    /** One run of the registrant cargo's worker: up to 20 payloads go to the renderer, unless it is destroyed. */
    method Flush()
      requires Valid()
      modifies this`delivered, this`cargo, this`taken
      ensures Valid()
      ensures cargo.queue == old(cargo.queue)[Min(RegistrantBatchSize, |old(cargo.queue)|)..]
      ensures delivered == if peerDestroyed || old(cargo.queue) == [] then old(delivered)
                           else old(delivered) + [old(cargo.queue)[..Min(RegistrantBatchSize, |old(cargo.queue)|)]]
    {
      ConveyedTake(cargo, taken, received);
      var t := cargo.Take();
      var batch := t.0;
      cargo := t.1;
      if batch != [] {
        taken := taken + [batch];
        if !peerDestroyed {
          delivered := delivered + [batch];
        }
      }
    }
  }
}
