/**
 * src/dispatcher.go: the webhook message dispatcher.  Handlers subscribe per
 * event type or for text messages; `Trigger` runs the matching handlers, in
 * registration order, on one fresh per-request `Context`.  The context keeps
 * a key/value map, memoises the tenant's app info (only a successful lookup)
 * and the customer-message sender, and embeds the request's reply writer.
 *
 * Handlers are Go closures; the model gives each one a name and a script of
 * context operations, which is what it can do to the shared state.  Parsing
 * the message (`MarshalEvent`, `MarshalTextMessage`) is foreign: its outcomes
 * are the parameter `data`.
 */
module Dispatch {
  import opened Errors
  import opened Storage
  import opened Replies

  // The ServerMessage MsgType values the dispatcher distinguishes.
  const ServerMsgTypeEvent := "event"
  const ServerMsgTypeText := "text"

  datatype EventMessage = EventMessage(event: string, eventKey: string)
  datatype IncomingText = IncomingText(fromUser: string, content: string)

  /** What parsing the request body as an event and as a text message gives. */
  datatype MessageData = MessageData(event: Result<EventMessage>, text: Result<IncomingText>)

  /** The customer-message sender the context hands out, bound to one user. */
  datatype Sender = Sender(openid: string)

  /**
   * The context's two getters: the app-info getter's answer to its n-th call
   * (it reads a store, so it may fail once and succeed later) and the value
   * the sender getter returns.
   */
  datatype Getters = Getters(app: nat -> Result<Option<AuthorizerInfo>>, sender: Option<Sender>)

  /** One thing a handler does with its context. */
  datatype Step =
    | Put(key: string, value: string)   // ctx.Set
    | Copy(from: string, to: string)    // ctx.Get, then ctx.Set when present
    | AskApp                            // ctx.AppInfo
    | AskSender                         // ctx.CustomerMsgSender
    | Reply(text: string)               // ctx.ResponseText

  datatype Handler = Handler(name: string, steps: seq<Step>)

  /** The state of one context, the reply writer it embeds included. */
  datatype CtxState = CtxState(
    values: map<string, string>, app: Option<AuthorizerInfo>, appCalls: nat,
    sender: Option<Sender>, senderCalls: nat, ran: seq<string>, writer: WriterState)

  /** newContext: an empty value map and no memoised values. */
  function NewContext(w: WriterState): (s: CtxState)
    ensures s.values == map[] && s.app.None? && s.sender.None? && s.ran == []
    ensures s.appCalls == 0 && s.senderCalls == 0 && s.writer == w
  {
    CtxState(map[], None, 0, None, 0, [], w)
  }

  /** Get: the value under `key`, if any. */
  function Lookup(values: map<string, string>, key: string): (r: Option<string>)
    ensures r.Some? <==> key in values
    ensures r.Some? ==> r.value == values[key]
  {
    if key in values then Some(values[key]) else None
  }

  /**
   * AppInfo: a memoised app is returned without calling the getter; otherwise
   * the getter is called, its error is returned and nothing is memoised, and
   * its result is memoised (a nil result leaves the memo empty).
   */
  function AppInfoStep(g: Getters, s: CtxState): (r: (Result<Option<AuthorizerInfo>>, CtxState))
  {
    match s.app
    case Some(a) => (Ok(Some(a)), s)
    case None =>
      var s1 := s.(appCalls := s.appCalls + 1);
      match g.app(s.appCalls)
      case Err(e) => (Err(e), s1)
      case Ok(a) => (Ok(a), s1.(app := a))
  }

  /** CustomerMsgSender: the getter is called only while nothing is memoised. */
  function SenderStep(g: Getters, s: CtxState): (r: (Option<Sender>, CtxState))
  {
    match s.sender
    case Some(x) => (Some(x), s)
    case None => (g.sender, s.(sender := g.sender, senderCalls := s.senderCalls + 1))
  }

  function RunStep(g: Getters, sendFault: Option<string>, s: CtxState, step: Step, now: int): (r: CtxState)
    ensures r.ran == s.ran
  {
    match step
    case Put(k, v) => s.(values := s.values[k := v])
    case Copy(from, to) =>
      (match Lookup(s.values, from)
       case Some(v) => s.(values := s.values[to := v])
       case None => s)
    case AskApp => AppInfoStep(g, s).1
    case AskSender => SenderStep(g, s).1
    case Reply(text) => s.(writer := Respond(sendFault, s.writer, TextMessage(text), now).1)
  }

  function RunSteps(g: Getters, sendFault: Option<string>, s: CtxState, steps: seq<Step>, now: int): (r: CtxState)
    ensures r.ran == s.ran
    decreases |steps|
  {
    if steps == [] then s else RunSteps(g, sendFault, RunStep(g, sendFault, s, steps[0], now), steps[1..], now)
  }

  /** Running a handler: it is logged as run, then its steps act on the context. */
  function RunHandler(g: Getters, sendFault: Option<string>, s: CtxState, h: Handler, now: int): CtxState
  {
    RunSteps(g, sendFault, s.(ran := s.ran + [h.name]), h.steps, now)
  }

  function RunHandlers(g: Getters, sendFault: Option<string>, s: CtxState, hs: seq<Handler>, now: int): CtxState
    decreases |hs|
  {
    if hs == [] then s else RunHandlers(g, sendFault, RunHandler(g, sendFault, s, hs[0], now), hs[1..], now)
  }

  /** The handlers subscribed to `evt`; an event nobody subscribed to has none. */
  function HandlersFor(events: map<string, seq<Handler>>, evt: string): (r: seq<Handler>)
    ensures evt !in events ==> r == []
    ensures evt in events ==> r == events[evt]
  {
    if evt in events then events[evt] else []
  }

  /** SubscribeEvent on the handler table. */
  function Subscribe(events: map<string, seq<Handler>>, evt: string, h: Handler): (r: map<string, seq<Handler>>)
    ensures HandlersFor(r, evt) == HandlersFor(events, evt) + [h]
    ensures forall e :: e != evt ==> HandlersFor(r, e) == HandlersFor(events, e)
    ensures r.Keys == events.Keys + {evt}
  {
    events[evt := HandlersFor(events, evt) + [h]]
  }

  /**
   * trigger: the error it returns and, when it creates one, the final state of
   * the request's context.  An event is parsed and all its handlers run; a text
   * message is parsed and handled only when there are text handlers; any other
   * message type is ignored.
   */
  function TriggerOutcome(texts: seq<Handler>, events: map<string, seq<Handler>>, msgType: string,
                          data: MessageData, g: Getters, sendFault: Option<string>, w: WriterState, now: int)
    : (r: (Option<Error>, Option<CtxState>))
  {
    if msgType == ServerMsgTypeEvent then
      match data.event
      case Err(e) => (Some(e), None)
      case Ok(ev) => (None, Some(RunHandlers(g, sendFault, NewContext(w), HandlersFor(events, ev.event), now)))
    else if msgType == ServerMsgTypeText then
      if texts == [] then (None, None)
      else match data.text
        case Err(e) => (Some(e), None)
        case Ok(_) => (None, Some(RunHandlers(g, sendFault, NewContext(w), texts, now)))
    else (None, None)
  }

  // ---------------------------------------------------------------------------
  // Properties.

  function Names(hs: seq<Handler>): (r: seq<string>)
    ensures |r| == |hs| && forall i :: 0 <= i < |hs| ==> r[i] == hs[i].name
  {
    seq(|hs|, i requires 0 <= i < |hs| => hs[i].name)
  }

  /** Every handler runs exactly once, in the order given. */
  lemma {:induction false} HandlersRunInOrder(g: Getters, sendFault: Option<string>, s: CtxState, hs: seq<Handler>, now: int)
    ensures RunHandlers(g, sendFault, s, hs, now).ran == s.ran + Names(hs)
    decreases |hs|
  {
    if hs != [] {
      var s1 := RunHandler(g, sendFault, s, hs[0], now);
      HandlersRunInOrder(g, sendFault, s1, hs[1..], now);
      assert Names(hs) == [hs[0].name] + Names(hs[1..]);
    }
  }

  /** The handlers share one context: running two lists is running the first, then the second on its result. */
  lemma {:induction false} HandlersShareContext(g: Getters, sendFault: Option<string>, s: CtxState,
                                                 first: seq<Handler>, second: seq<Handler>, now: int)
    ensures RunHandlers(g, sendFault, s, first + second, now)
         == RunHandlers(g, sendFault, RunHandlers(g, sendFault, s, first, now), second, now)
    decreases |first|
  {
    if first == [] {
      assert first + second == second;
    } else {
      assert (first + second)[0] == first[0];
      assert (first + second)[1..] == first[1..] + second;
      HandlersShareContext(g, sendFault, RunHandler(g, sendFault, s, first[0], now), first[1..], second, now);
    }
  }

  // The replies of all handlers together still answer the request at most once.

  lemma RunStepAnsweredOnce(g: Getters, sendFault: Option<string>, before: seq<Chunk>, s: CtxState, step: Step, now: int)
    requires AnsweredOnce(sendFault, before, s.writer)
    ensures AnsweredOnce(sendFault, before, RunStep(g, sendFault, s, step, now).writer)
  {
    if step.Reply? {
      RespondKeepsAnsweredOnce(sendFault, before, s.writer, TextMessage(step.text), now);
    }
  }

  lemma {:induction false} RunStepsAnsweredOnce(g: Getters, sendFault: Option<string>, before: seq<Chunk>, s: CtxState, steps: seq<Step>, now: int)
    requires AnsweredOnce(sendFault, before, s.writer)
    ensures AnsweredOnce(sendFault, before, RunSteps(g, sendFault, s, steps, now).writer)
    decreases |steps|
  {
    if steps != [] {
      RunStepAnsweredOnce(g, sendFault, before, s, steps[0], now);
      RunStepsAnsweredOnce(g, sendFault, before, RunStep(g, sendFault, s, steps[0], now), steps[1..], now);
    }
  }

  lemma {:induction false} RunHandlersAnsweredOnce(g: Getters, sendFault: Option<string>, before: seq<Chunk>, s: CtxState, hs: seq<Handler>, now: int)
    requires AnsweredOnce(sendFault, before, s.writer)
    ensures AnsweredOnce(sendFault, before, RunHandlers(g, sendFault, s, hs, now).writer)
    decreases |hs|
  {
    if hs != [] {
      RunStepsAnsweredOnce(g, sendFault, before, s.(ran := s.ran + [hs[0].name]), hs[0].steps, now);
      RunHandlersAnsweredOnce(g, sendFault, before, RunHandler(g, sendFault, s, hs[0], now), hs[1..], now);
    }
  }

  // The sender getter is called at most once when it gives a sender.

  ghost predicate SenderMemo(g: Getters, s: CtxState) {
    (s.sender.None? && s.senderCalls == 0) || (s.sender == g.sender && s.senderCalls == 1)
  }

  lemma {:induction false} RunStepsSenderMemo(g: Getters, sendFault: Option<string>, s: CtxState, steps: seq<Step>, now: int)
    requires g.sender.Some? && SenderMemo(g, s)
    ensures SenderMemo(g, RunSteps(g, sendFault, s, steps, now))
    decreases |steps|
  {
    if steps != [] {
      RunStepsSenderMemo(g, sendFault, RunStep(g, sendFault, s, steps[0], now), steps[1..], now);
    }
  }

  lemma {:induction false} RunHandlersSenderMemo(g: Getters, sendFault: Option<string>, s: CtxState, hs: seq<Handler>, now: int)
    requires g.sender.Some? && SenderMemo(g, s)
    ensures SenderMemo(g, RunHandlers(g, sendFault, s, hs, now))
    decreases |hs|
  {
    if hs != [] {
      RunStepsSenderMemo(g, sendFault, s.(ran := s.ran + [hs[0].name]), hs[0].steps, now);
      RunHandlersSenderMemo(g, sendFault, RunHandler(g, sendFault, s, hs[0], now), hs[1..], now);
    }
  }

  /** Over a whole request, a sender getter that gives a sender is called at most once. */
  lemma SenderFetchedOnce(g: Getters, sendFault: Option<string>, w: WriterState, hs: seq<Handler>, now: int)
    requires g.sender.Some?
    ensures RunHandlers(g, sendFault, NewContext(w), hs, now).senderCalls <= 1
  {
    RunHandlersSenderMemo(g, sendFault, NewContext(w), hs, now);
  }

  /** AppInfo returns a memoised app untouched and memoises only a successful, non-nil lookup. */
  lemma AppInfoMemo(g: Getters, s: CtxState)
    ensures var (r, s1) := AppInfoStep(g, s);
      && s1.values == s.values && s1.sender == s.sender && s1.writer == s.writer
      && (s.app.Some? ==> r == Ok(s.app) && s1 == s)
      && (s.app.None? ==> s1.appCalls == s.appCalls + 1 && r == g.app(s.appCalls))
      && (s.app.None? && r.Err? ==> s1.app.None?)
      && (s.app.None? && r.Ok? ==> s1.app == r.value)
  {
  }

  /** A failed lookup is retried: the next AppInfo asks the getter again, for its next answer. */
  lemma AppInfoRetriedAfterFailure(g: Getters, s: CtxState)
    requires s.app.None? && g.app(s.appCalls).Err?
    ensures var s1 := AppInfoStep(g, s).1;
      AppInfoStep(g, s1).0 == g.app(s.appCalls + 1)
  {
  }

  /** Get after Set: the value of the latest Put of `key`, or what was there before. */
  function LastPut(steps: seq<Step>, key: string, before: Option<string>): Option<string>
    decreases |steps|
  {
    if steps == [] then before
    else if steps[|steps| - 1].Put? && steps[|steps| - 1].key == key then Some(steps[|steps| - 1].value)
    else LastPut(steps[..|steps| - 1], key, before)
  }

  ghost predicate OnlyPuts(steps: seq<Step>) {
    forall i :: 0 <= i < |steps| ==> steps[i].Put?
  }

  lemma {:induction false} LastSetWins(g: Getters, sendFault: Option<string>, s: CtxState, steps: seq<Step>, key: string, now: int)
    requires OnlyPuts(steps)
    ensures Lookup(RunSteps(g, sendFault, s, steps, now).values, key) == LastPut(steps, key, Lookup(s.values, key))
    decreases |steps|
  {
    if steps != [] {
      var init := steps[..|steps| - 1];
      var last := steps[|steps| - 1];
      assert steps == init + [last];
      RunStepsAppend(g, sendFault, s, init, last, now);
      LastSetWins(g, sendFault, s, init, key, now);
    }
  }

  lemma {:induction false} RunStepsAppend(g: Getters, sendFault: Option<string>, s: CtxState, steps: seq<Step>, last: Step, now: int)
    ensures RunSteps(g, sendFault, s, steps + [last], now)
         == RunStep(g, sendFault, RunSteps(g, sendFault, s, steps, now), last, now)
    decreases |steps|
  {
    if steps == [] {
      assert steps + [last] == [last];
    } else {
      assert (steps + [last])[1..] == steps[1..] + [last];
      RunStepsAppend(g, sendFault, RunStep(g, sendFault, s, steps[0], now), steps[1..], last, now);
    }
  }

  // What a trigger does.

  /** An event runs exactly its subscribed handlers, in order, on a fresh context; no subscribers, nothing runs. */
  lemma EventRunsSubscribers(texts: seq<Handler>, events: map<string, seq<Handler>>, data: MessageData,
                             g: Getters, sendFault: Option<string>, w: WriterState, now: int)
    requires data.event.Ok?
    ensures var (err, ctx) := TriggerOutcome(texts, events, ServerMsgTypeEvent, data, g, sendFault, w, now);
      && err.None? && ctx.Some?
      && ctx.value.ran == Names(HandlersFor(events, data.event.value.event))
      && (data.event.value.event !in events ==> ctx.value == NewContext(w))
  {
    HandlersRunInOrder(g, sendFault, NewContext(w), HandlersFor(events, data.event.value.event), now);
  }

  /** Text messages run every text handler, in order, on a fresh context. */
  lemma TextRunsAllTextHandlers(texts: seq<Handler>, events: map<string, seq<Handler>>, data: MessageData,
                                g: Getters, sendFault: Option<string>, w: WriterState, now: int)
    requires texts != [] && data.text.Ok?
    ensures var (err, ctx) := TriggerOutcome(texts, events, ServerMsgTypeText, data, g, sendFault, w, now);
      err.None? && ctx.Some? && ctx.value.ran == Names(texts)
  {
    HandlersRunInOrder(g, sendFault, NewContext(w), texts, now);
  }

  /** Without text handlers a text message is not even parsed: the outcome does not depend on the parse. */
  lemma TextUnparsedWithoutHandlers(events: map<string, seq<Handler>>, data1: MessageData, data2: MessageData,
                                    g: Getters, sendFault: Option<string>, w: WriterState, now: int)
    ensures TriggerOutcome([], events, ServerMsgTypeText, data1, g, sendFault, w, now) == (None, None)
    ensures TriggerOutcome([], events, ServerMsgTypeText, data1, g, sendFault, w, now)
         == TriggerOutcome([], events, ServerMsgTypeText, data2, g, sendFault, w, now)
  {
  }

  /** A parse error is returned before any handler runs or any context exists. */
  lemma ParseErrorRunsNothing(texts: seq<Handler>, events: map<string, seq<Handler>>, msgType: string, data: MessageData,
                              g: Getters, sendFault: Option<string>, w: WriterState, now: int)
    requires (msgType == ServerMsgTypeEvent && data.event.Err?)
          || (msgType == ServerMsgTypeText && texts != [] && data.text.Err?)
    ensures var (err, ctx) := TriggerOutcome(texts, events, msgType, data, g, sendFault, w, now);
      ctx.None? && err == Some(if msgType == ServerMsgTypeEvent then data.event.error else data.text.error)
  {
  }

  /** Message types other than event and text run nothing and return nil. */
  lemma OtherTypesIgnored(texts: seq<Handler>, events: map<string, seq<Handler>>, msgType: string, data: MessageData,
                          g: Getters, sendFault: Option<string>, w: WriterState, now: int)
    requires msgType != ServerMsgTypeEvent && msgType != ServerMsgTypeText
    ensures TriggerOutcome(texts, events, msgType, data, g, sendFault, w, now) == (None, None)
  {
  }

  /** However many handlers reply, the request's body holds at most one reply. */
  lemma TriggerAnswersOnce(texts: seq<Handler>, events: map<string, seq<Handler>>, msgType: string, data: MessageData,
                           g: Getters, sendFault: Option<string>, before: seq<Chunk>, w: WriterState, now: int)
    requires AnsweredOnce(sendFault, before, w)
    ensures var (_, ctx) := TriggerOutcome(texts, events, msgType, data, g, sendFault, w, now);
      ctx.Some? ==> AnsweredOnce(sendFault, before, ctx.value.writer)
  {
    if msgType == ServerMsgTypeEvent && data.event.Ok? {
      RunHandlersAnsweredOnce(g, sendFault, before, NewContext(w), HandlersFor(events, data.event.value.event), now);
    } else if msgType == ServerMsgTypeText && texts != [] && data.text.Ok? {
      RunHandlersAnsweredOnce(g, sendFault, before, NewContext(w), texts, now);
    }
  }

  // ---------------------------------------------------------------------------
  // The objects.

  /** The per-request context. */
  class Context {
    const getters: Getters
    const writer: ResponseWriter
    var values: map<string, string>
    var app: Option<AuthorizerInfo>
    var appCalls: nat
    var sender: Option<Sender>
    var senderCalls: nat
    var ran: seq<string>

    constructor (getters: Getters, writer: ResponseWriter)
      ensures this.getters == getters && this.writer == writer
      ensures State() == NewContext(writer.State())
    {
      this.getters := getters;
      this.writer := writer;
      values := map[];
      app := None;
      appCalls := 0;
      sender := None;
      senderCalls := 0;
      ran := [];
    }

    function State(): CtxState
      reads this, writer, writer.body
    {
      CtxState(values, app, appCalls, sender, senderCalls, ran, writer.State())
    }

    function Get(key: string): (r: Option<string>)
      reads this
      ensures r.Some? <==> key in values
      ensures r.Some? ==> r.value == values[key]
    {
      Lookup(values, key)
    }

    method Set(key: string, value: string)
      modifies this
      ensures State() == old(State()).(values := old(values)[key := value])
    {
      values := values[key := value];
    }

    method AppInfo() returns (r: Result<Option<AuthorizerInfo>>)
      modifies this
      ensures (r, State()) == AppInfoStep(getters, old(State()))
    {
      if app.None? {
        var got := getters.app(appCalls);
        appCalls := appCalls + 1;
        if got.Err? {
          return Err(got.error);
        }
        app := got.value;
      }
      r := Ok(app);
    }

    method CustomerMsgSender() returns (r: Option<Sender>)
      modifies this
      ensures (r, State()) == SenderStep(getters, old(State()))
    {
      if sender.None? {
        sender := getters.sender;
        senderCalls := senderCalls + 1;
      }
      r := sender;
    }

    method Perform(step: Step, now: int)
      modifies this, writer, writer.body
      ensures State() == RunStep(getters, writer.sendFault, old(State()), step, now)
    {
      match step
      case Put(k, v) =>
        Set(k, v);
      case Copy(from, to) =>
        var v := Get(from);
        if v.Some? {
          Set(to, v.value);
        }
      case AskApp =>
        var _ := AppInfo();
      case AskSender =>
        var _ := CustomerMsgSender();
      case Reply(text) =>
        var _ := writer.ResponseText(text, now);
    }

    /** Runs one handler on this context. */
    method Run(h: Handler, now: int)
      modifies this, writer, writer.body
      ensures State() == RunHandler(getters, writer.sendFault, old(State()), h, now)
    {
      ghost var goal := RunHandler(getters, writer.sendFault, State(), h, now);
      ran := ran + [h.name];
      var i := 0;
      while i < |h.steps|
        invariant 0 <= i <= |h.steps|
        invariant RunSteps(getters, writer.sendFault, State(), h.steps[i..], now) == goal
      {
        assert h.steps[i..][1..] == h.steps[i + 1..];
        Perform(h.steps[i], now);
        i := i + 1;
      }
    }
  }

  /** The handler table. */
  class Dispatcher {
    var textMsgHandlers: seq<Handler>
    var eventHandlers: map<string, seq<Handler>>

    constructor ()
      ensures textMsgHandlers == [] && eventHandlers == map[]
    {
      textMsgHandlers := [];
      eventHandlers := map[];
    }

    method SubscribeEvent(evt: string, h: Handler)
      modifies this
      ensures eventHandlers == Subscribe(old(eventHandlers), evt, h)
      ensures textMsgHandlers == old(textMsgHandlers)
    {
      eventHandlers := eventHandlers[evt := HandlersFor(eventHandlers, evt) + [h]];
    }

    method SubscribeTextMsg(h: Handler)
      modifies this
      ensures textMsgHandlers == old(textMsgHandlers) + [h]
      ensures eventHandlers == old(eventHandlers)
    {
      textMsgHandlers := textMsgHandlers + [h];
    }

    /** Runs `hs` in order on `ctx`. */
    method RunAll(ctx: Context, hs: seq<Handler>, now: int)
      modifies ctx, ctx.writer, ctx.writer.body
      ensures ctx.State() == RunHandlers(ctx.getters, ctx.writer.sendFault, old(ctx.State()), hs, now)
    {
      ghost var goal := RunHandlers(ctx.getters, ctx.writer.sendFault, ctx.State(), hs, now);
      var i := 0;
      while i < |hs|
        invariant 0 <= i <= |hs|
        invariant RunHandlers(ctx.getters, ctx.writer.sendFault, ctx.State(), hs[i..], now) == goal
      {
        assert hs[i..][1..] == hs[i + 1..];
        ctx.Run(hs[i], now);
        i := i + 1;
      }
    }

    /**
     * trigger: `msgType` is the request's MsgType, `data` the outcomes of
     * parsing it, `w` the request's reply writer.  The context it creates, if
     * any, is returned so that its final state can be stated.
     */
    method Trigger(msgType: string, data: MessageData, getters: Getters, w: ResponseWriter, now: int)
      returns (err: Option<Error>, ctx: Context?)
      modifies w, w.body
      ensures var (e, s) := TriggerOutcome(textMsgHandlers, eventHandlers, msgType, data, getters, w.sendFault,
                                           old(w.State()), now);
        && err == e
        && (s.None? ==> ctx == null && w.State() == old(w.State()))
        && (s.Some? ==> ctx != null && fresh(ctx) && ctx.writer == w && ctx.getters == getters
                        && ctx.State() == s.value)
    {
      ctx := null;
      if msgType == ServerMsgTypeEvent {
        if data.event.Err? {
          return Some(data.event.error), null;
        }
        ctx := new Context(getters, w);
        RunAll(ctx, HandlersFor(eventHandlers, data.event.value.event), now);
      } else if msgType == ServerMsgTypeText {
        if |textMsgHandlers| > 0 {
          if data.text.Err? {
            return Some(data.text.error), null;
          }
          ctx := new Context(getters, w);
          RunAll(ctx, textMsgHandlers, now);
        }
      }
      err := None;
    }
  }
}
