/**
 * src/customer.go: customer-service messages.  The sender fans one
 * mini-program card out to a list of users: a "break" error stops the fan-out
 * and is returned, a "common" error is ignored, any other error is logged and
 * the fan-out goes on.  The responder sends to the one user it is bound to.
 *
 * The platform's answer to each send is the oracle `send`; how an error is
 * classified (`message.IsBreakError`, `message.IsCMsgCommonError`) is the
 * error's `SendErrorKind`.
 */
module Customer {
  import opened Errors

  datatype MiniProgramPage = MiniProgramPage(title: string, appid: string, pagePath: string, thumbMediaId: string)

  /** One send request: the recipient and the card. */
  datatype Delivery = Delivery(openid: string, page: MiniProgramPage)

  /** One logged failure: the recipient and the error. */
  datatype LogLine = LogLine(openid: string, error: Error)

  predicate IsBreak(e: Error) {
    e.SendFault? && e.kind == BreakKind
  }

  predicate IsCommon(e: Error) {
    e.SendFault? && e.kind == CommonKind
  }

  /** A failure that is logged: neither a break nor a common error. */
  predicate Reported(r: Option<Error>) {
    r.Some? && !IsBreak(r.value) && !IsCommon(r.value)
  }

  /** The failures logged for one answer. */
  function LogOf(openid: string, out: Option<Error>): (r: seq<LogLine>)
    ensures r != [] <==> Reported(out)
  {
    if Reported(out) then [LogLine(openid, out.value)] else []
  }

  /**
   * The fan-out over `ids`: the error it returns, the recipients it sent to
   * (in order) and the failures it logged (in order).
   */
  function Fanout(send: (string, string, MiniProgramPage) -> Option<Error>, token: string, page: MiniProgramPage,
                  ids: seq<string>): (r: (Option<Error>, seq<string>, seq<LogLine>))
    ensures |r.1| <= |ids|
    decreases |ids|
  {
    if ids == [] then (None, [], [])
    else
      var out := send(token, ids[0], page);
      if out.Some? && IsBreak(out.value) then (out, [ids[0]], [])
      else
        var rest := Fanout(send, token, page, ids[1..]);
        (rest.0, [ids[0]] + rest.1, LogOf(ids[0], out) + rest.2)
  }

  /** `send`'s answer to `openid` is a break error. */
  predicate Breaks(send: (string, string, MiniProgramPage) -> Option<Error>, token: string, page: MiniProgramPage, openid: string) {
    send(token, openid, page).Some? && IsBreak(send(token, openid, page).value)
  }

  /**
   * What the fan-out promises of its result `r` over `ids`: it sends to a
   * prefix of `ids`; it returns an error exactly when some recipient's answer
   * is a break, and that error is the first break, after which nobody else is
   * sent to; it logs exactly the reported failures of the recipients it sent
   * to.
   */
  ghost predicate FanoutMeets(send: (string, string, MiniProgramPage) -> Option<Error>, token: string,
                              page: MiniProgramPage, ids: seq<string>, r: (Option<Error>, seq<string>, seq<LogLine>))
  {
    && |r.1| <= |ids| && r.1 == ids[..|r.1|]
    && (r.0.None? <==> forall i :: 0 <= i < |ids| ==> !Breaks(send, token, page, ids[i]))
    && (r.0.None? ==> r.1 == ids)
    && (r.0.Some? ==> r.1 != [] && send(token, r.1[|r.1| - 1], page) == r.0 && IsBreak(r.0.value))
    && (forall i :: 0 <= i < |r.1| - 1 ==> !Breaks(send, token, page, r.1[i]))
    && (forall l :: l in r.2 ==> l.openid in r.1 && send(token, l.openid, page) == Some(l.error) && Reported(Some(l.error)))
    && (forall i :: 0 <= i < |r.1| && Reported(send(token, r.1[i], page)) ==>
          LogLine(r.1[i], send(token, r.1[i], page).value) in r.2)
  }

  lemma {:induction false} FanoutFacts(send: (string, string, MiniProgramPage) -> Option<Error>, token: string,
                                       page: MiniProgramPage, ids: seq<string>)
    ensures FanoutMeets(send, token, page, ids, Fanout(send, token, page, ids))
    decreases |ids|
  {
    if ids != [] && !Breaks(send, token, page, ids[0]) {
      FanoutFacts(send, token, page, ids[1..]);
      var rest := Fanout(send, token, page, ids[1..]);
      assert forall i :: 1 <= i < |ids| ==> ids[i] == ids[1..][i - 1];
      assert forall i :: 1 <= i < |[ids[0]] + rest.1| ==> ([ids[0]] + rest.1)[i] == rest.1[i - 1];
    }
  }

  /** The requests made to the recipients `ids`, in order. */
  function Deliveries(ids: seq<string>, page: MiniProgramPage): (r: seq<Delivery>)
    ensures |r| == |ids| && forall i :: 0 <= i < |ids| ==> r[i] == Delivery(ids[i], page)
  {
    seq(|ids|, i requires 0 <= i < |ids| => Delivery(ids[i], page))
  }

  lemma DeliveriesSnoc(ids: seq<string>, x: string, page: MiniProgramPage)
    ensures Deliveries(ids + [x], page) == Deliveries(ids, page) + [Delivery(x, page)]
  {
  }

  /** The fan-out stops at a recipient whose answer is a break. */
  lemma FanoutBreak(send: (string, string, MiniProgramPage) -> Option<Error>, token: string, page: MiniProgramPage,
                    ids: seq<string>)
    requires ids != []
    requires Breaks(send, token, page, ids[0])
    ensures Fanout(send, token, page, ids) == (send(token, ids[0], page), [ids[0]], [])
  {
  }

  /** One step of the fan-out past a recipient whose answer is not a break. */
  lemma FanoutCons(send: (string, string, MiniProgramPage) -> Option<Error>, token: string, page: MiniProgramPage,
                   ids: seq<string>)
    requires ids != []
    requires !Breaks(send, token, page, ids[0])
    ensures Fanout(send, token, page, ids)
         == Combine([ids[0]], LogOf(ids[0], send(token, ids[0], page)), Fanout(send, token, page, ids[1..]))
  {
  }

  /** A fan-out result `r` preceded by the recipients `sent` and the failures `logged`. */
  function Combine(sent: seq<string>, logged: seq<LogLine>, r: (Option<Error>, seq<string>, seq<LogLine>))
    : (c: (Option<Error>, seq<string>, seq<LogLine>))
    ensures c.0 == r.0 && |c.1| == |sent| + |r.1| && |c.2| == |logged| + |r.2|
  {
    (r.0, sent + r.1, logged + r.2)
  }

  lemma CombineEmpty(r: (Option<Error>, seq<string>, seq<LogLine>))
    ensures Combine([], [], r) == r
  {
    assert [] + r.1 == r.1 && [] + r.2 == r.2;
  }

  lemma CombineAssoc(a: seq<string>, b: seq<LogLine>, c: seq<string>, d: seq<LogLine>, r: (Option<Error>, seq<string>, seq<LogLine>))
    ensures Combine(a, b, Combine(c, d, r)) == Combine(a + c, b + d, r)
  {
    assert a + (c + r.1) == (a + c) + r.1;
    assert b + (d + r.2) == (b + d) + r.2;
  }

  lemma CombineBreak(sent: seq<string>, logged: seq<LogLine>, openid: string, out: Option<Error>)
    ensures Combine(sent, logged, (out, [openid], [])) == (out, sent + [openid], logged)
  {
    assert logged + [] == logged;
  }

  lemma CombineDone(sent: seq<string>, logged: seq<LogLine>)
    ensures Combine(sent, logged, (None, [], [])) == (None, sent, logged)
  {
    assert sent + [] == sent && logged + [] == logged;
  }

  /** The sender of one client: its token getter's answer and the platform's answers. */
  class CustomerMsgSender {
    const token: Result<string>
    const send: (string, string, MiniProgramPage) -> Option<Error>
    var requests: seq<Delivery>
    var log: seq<LogLine>

    constructor (token: Result<string>, send: (string, string, MiniProgramPage) -> Option<Error>)
      ensures this.token == token && this.send == send && requests == [] && log == []
    {
      this.token := token;
      this.send := send;
      requests := [];
      log := [];
    }

    /** A token error is returned before anything is sent. */
    method SendMiniProgramPage(toOpenid: seq<string>, page: MiniProgramPage) returns (err: Option<Error>)
      modifies this
      ensures token.Err? ==> err == Some(token.error) && requests == old(requests) && log == old(log)
      ensures token.Ok? ==>
        && err == Fanout(send, token.value, page, toOpenid).0
        && requests == old(requests) + Deliveries(Fanout(send, token.value, page, toOpenid).1, page)
        && log == old(log) + Fanout(send, token.value, page, toOpenid).2
    {
      if token.Err? {
        return Some(token.error);
      }
      err := Deliver(token.value, toOpenid, page);
    }

    /** The fan-out loop, once the token is known. */
    method Deliver(accessToken: string, toOpenid: seq<string>, page: MiniProgramPage) returns (err: Option<Error>)
      modifies this
      ensures err == Fanout(send, accessToken, page, toOpenid).0
      ensures requests == old(requests) + Deliveries(Fanout(send, accessToken, page, toOpenid).1, page)
      ensures log == old(log) + Fanout(send, accessToken, page, toOpenid).2
    {
      ghost var requests0, log0 := requests, log;
      ghost var sent: seq<string> := [];
      ghost var logged: seq<LogLine> := [];
      var rest := toOpenid;
      CombineEmpty(Fanout(send, accessToken, page, rest));
      while rest != []
        invariant requests == requests0 + Deliveries(sent, page)
        invariant log == log0 + logged
        invariant Fanout(send, accessToken, page, toOpenid) == Combine(sent, logged, Fanout(send, accessToken, page, rest))
        decreases |rest|
      {
        var openid := rest[0];
        var out := send(accessToken, openid, page);
        DeliveriesSnoc(sent, openid, page);
        requests := requests + [Delivery(openid, page)];
        if out.Some? && IsBreak(out.value) {
          FanoutBreak(send, accessToken, page, rest);
          CombineBreak(sent, logged, openid, out);
          return out;
        }
        FanoutCons(send, accessToken, page, rest);
        CombineAssoc(sent, logged, [openid], LogOf(openid, out), Fanout(send, accessToken, page, rest[1..]));
        sent := sent + [openid];
        log := log + LogOf(openid, out);
        logged := logged + LogOf(openid, out);
        rest := rest[1..];
      }
      CombineDone(sent, logged);
      err := None;
    }
  }

  /** A responder: the sender bound to the user who wrote in. */
  class CustomerMsgResponser {
    const openid: string
    const sender: CustomerMsgSender

    constructor (openid: string, sender: CustomerMsgSender)
      ensures this.openid == openid && this.sender == sender
    {
      this.openid := openid;
      this.sender := sender;
    }

    /** Sends the card to exactly the bound user. */
    method ResponseMiniProgramPage(page: MiniProgramPage) returns (err: Option<Error>)
      modifies sender
      ensures sender.token.Err? ==>
        err == Some(sender.token.error) && sender.requests == old(sender.requests) && sender.log == old(sender.log)
      ensures sender.token.Ok? ==>
        var out := sender.send(sender.token.value, openid, page);
        && sender.requests == old(sender.requests) + [Delivery(openid, page)]
        && err == (if out.Some? && IsBreak(out.value) then out else None)
        && sender.log == old(sender.log) + (if Reported(out) then [LogLine(openid, out.value)] else [])
    {
      err := sender.SendMiniProgramPage([openid], page);
      if sender.token.Ok? {
        assert [openid][1..] == [];
      }
    }
  }
}
