/**
 * src/response.go: the passive-reply writer of a webhook request.  A reply
 * is a tagged message record; the writer remembers the first reply it was
 * asked to send in `history` and refuses every later one, so a request is
 * answered at most once.  Serialising, encrypting and writing a reply
 * (`message.Response`) is the foreign part: the model records the reply
 * itself in the HTTP body, or fails with `sendFault`.
 *
 * The input records `Music` and `Article` are declared in src/dispatcher.go.
 */
module Replies {
  import opened Errors

  /** The reply MsgType values. */
  datatype ReplyType = TextReply | ImageReply | VoiceReply | VideoReply | MusicReply | NewsReply

  /** The handler-facing input records (src/dispatcher.go). */
  datatype Music = Music(title: string, description: string, musicUrl: string, hqMusicUrl: string,
                         thumbMediaId: string)
  datatype Article = Article(title: string, description: string, url: string, picUrl: string)

  /** The payload records of a reply. */
  datatype ResVideo = ResVideo(mediaId: string, title: string, description: string)
  datatype ResMusic = ResMusic(title: string, description: string, musicUrl: string, hqMusicUrl: string,
                               thumbMediaId: string)
  datatype ResArticle = ResArticle(title: string, description: string, url: string, picUrl: string)

  /** A reply message: its type, its creation time and one optional field per payload kind. */
  datatype ReplyMessage = ReplyMessage(
    msgType: ReplyType, createTime: int,
    content: Option<string>, image: Option<string>, voice: Option<string>,
    video: Option<ResVideo>, music: Option<ResMusic>, articles: Option<seq<ResArticle>>)

  /** Exactly the payload field that belongs to the message type is present. */
  ghost predicate Tagged(m: ReplyMessage) {
    && (m.content.Some? <==> m.msgType == TextReply)
    && (m.image.Some? <==> m.msgType == ImageReply)
    && (m.voice.Some? <==> m.msgType == VoiceReply)
    && (m.video.Some? <==> m.msgType == VideoReply)
    && (m.music.Some? <==> m.msgType == MusicReply)
    && (m.articles.Some? <==> m.msgType == NewsReply)
  }

  const Bare := ReplyMessage(TextReply, 0, None, None, None, None, None, None)

  // The six builders: each sets its own type and copies its arguments verbatim.

  function TextMessage(text: string): (m: ReplyMessage)
    ensures Tagged(m) && m.msgType == TextReply && m.content == Some(text) && m.createTime == 0
  {
    Bare.(content := Some(text))
  }

  function ImageMessage(mediaId: string): (m: ReplyMessage)
    ensures Tagged(m) && m.msgType == ImageReply && m.image == Some(mediaId) && m.createTime == 0
  {
    Bare.(msgType := ImageReply, image := Some(mediaId))
  }

  function VoiceMessage(mediaId: string): (m: ReplyMessage)
    ensures Tagged(m) && m.msgType == VoiceReply && m.voice == Some(mediaId) && m.createTime == 0
  {
    Bare.(msgType := VoiceReply, voice := Some(mediaId))
  }

  function VideoMessage(mediaId: string, title: string, description: string): (m: ReplyMessage)
    ensures Tagged(m) && m.msgType == VideoReply && m.createTime == 0
    ensures m.video.Some? && m.video.value.mediaId == mediaId && m.video.value.title == title
      && m.video.value.description == description
  {
    Bare.(msgType := VideoReply, video := Some(ResVideo(mediaId, title, description)))
  }

  function MusicMessage(music: Music): (m: ReplyMessage)
    ensures Tagged(m) && m.msgType == MusicReply && m.createTime == 0
    ensures m.music.Some? && m.music.value.title == music.title
      && m.music.value.description == music.description && m.music.value.musicUrl == music.musicUrl
      && m.music.value.hqMusicUrl == music.hqMusicUrl && m.music.value.thumbMediaId == music.thumbMediaId
  {
    Bare.(msgType := MusicReply, music := Some(ResMusic(music.title, music.description, music.musicUrl,
                                                          music.hqMusicUrl, music.thumbMediaId)))
  }

  function ToResArticle(a: Article): (r: ResArticle)
    ensures r.title == a.title && r.description == a.description && r.url == a.url && r.picUrl == a.picUrl
  {
    ResArticle(a.title, a.description, a.url, a.picUrl)
  }

  /** The reply articles: the same length and order as the input articles. */
  function ToResArticles(articles: seq<Article>): (r: seq<ResArticle>)
    ensures |r| == |articles|
    ensures forall i :: 0 <= i < |articles| ==> r[i] == ToResArticle(articles[i])
  {
    if articles == [] then [] else [ToResArticle(articles[0])] + ToResArticles(articles[1..])
  }

  function NewsMessage(articles: seq<Article>): (m: ReplyMessage)
    ensures Tagged(m) && m.msgType == NewsReply && m.createTime == 0
    ensures m.articles.Some? && |m.articles.value| == |articles|
    ensures forall i :: 0 <= i < |articles| ==> m.articles.value[i] == ToResArticle(articles[i])
  {
    Bare.(msgType := NewsReply, articles := Some(ToResArticles(articles)))
  }

  // ---------------------------------------------------------------------------
  // The HTTP response body and the single-reply state machine.

  /** What a handler writes to the HTTP response: plain text, or an encrypted reply. */
  datatype Chunk = Plain(text: string) | Encrypted(reply: ReplyMessage)

  /** The writer's slot and the body it writes to. */
  datatype WriterState = WriterState(history: Option<ReplyMessage>, body: seq<Chunk>)

  /**
   * One `response` call at time `now`: a first call stamps the message,
   * keeps it in `history` before sending, and writes it unless the send
   * fails; every later call is refused and changes nothing.
   */
  function Respond(sendFault: Option<string>, s: WriterState, msg: ReplyMessage, now: int): (Option<Error>, WriterState)
  {
    match s.history
    case Some(_) => (Some(AlreadyResponded), s)
    case None =>
      var stamped := msg.(createTime := now);
      match sendFault
      case Some(text) => (Some(ReplyFault(text)), WriterState(Some(stamped), s.body))
      case None => (None, WriterState(Some(stamped), s.body + [Encrypted(stamped)]))
  }

  /**
   * The body is what it was before the writer existed (`before`), followed by
   * the reply kept in `history` exactly when there is one and sending works:
   * a request is answered at most once, and a refused send leaves no trace.
   */
  ghost predicate AnsweredOnce(sendFault: Option<string>, before: seq<Chunk>, s: WriterState) {
    match s.history
    case None => s.body == before
    case Some(m) => s.body == before + (if sendFault.None? then [Encrypted(m)] else [])
  }

  lemma FirstResponseRecorded(sendFault: Option<string>, s: WriterState, msg: ReplyMessage, now: int)
    requires s.history.None?
    ensures var (err, s1) := Respond(sendFault, s, msg, now);
      && s1.history == Some(msg.(createTime := now))
      && (sendFault.None? ==> err.None? && s1.body == s.body + [Encrypted(msg.(createTime := now))])
      && (sendFault.Some? ==> err == Some(ReplyFault(sendFault.value)) && s1.body == s.body)
  {
  }

  lemma LaterResponseRefused(sendFault: Option<string>, s: WriterState, msg: ReplyMessage, now: int)
    requires s.history.Some?
    ensures Respond(sendFault, s, msg, now) == (Some(AlreadyResponded), s)
  {
  }

  lemma RespondKeepsAnsweredOnce(sendFault: Option<string>, before: seq<Chunk>, s: WriterState, msg: ReplyMessage, now: int)
    requires AnsweredOnce(sendFault, before, s)
    ensures AnsweredOnce(sendFault, before, Respond(sendFault, s, msg, now).1)
  {
  }

  /** One reply attempt: the message and the clock reading of its call. */
  datatype Attempt = Attempt(msg: ReplyMessage, now: int)

  function RespondAll(sendFault: Option<string>, s: WriterState, attempts: seq<Attempt>): (r: (seq<Option<Error>>, WriterState))
    ensures |r.0| == |attempts|
    decreases |attempts|
  {
    if attempts == [] then ([], s)
    else
      var (err, s1) := Respond(sendFault, s, attempts[0].msg, attempts[0].now);
      var (errs, s2) := RespondAll(sendFault, s1, attempts[1..]);
      ([err] + errs, s2)
  }

  lemma {:induction false} AnsweredKeepsRefusing(sendFault: Option<string>, s: WriterState, attempts: seq<Attempt>)
    requires s.history.Some?
    ensures RespondAll(sendFault, s, attempts).1 == s
    ensures forall i :: 0 <= i < |attempts| ==> RespondAll(sendFault, s, attempts).0[i] == Some(AlreadyResponded)
  {
    if attempts != [] {
      AnsweredKeepsRefusing(sendFault, s, attempts[1..]);
    }
  }

  /**
   * Over any run of reply attempts on a fresh writer, only the first one
   * takes effect: it alone is kept and, unless the send fails, written;
   * every later attempt is refused.
   */
  lemma OnlyFirstReplyCounts(sendFault: Option<string>, body: seq<Chunk>, attempts: seq<Attempt>)
    requires attempts != []
    ensures var (errs, s) := RespondAll(sendFault, WriterState(None, body), attempts);
      var first := attempts[0].msg.(createTime := attempts[0].now);
      && s.history == Some(first)
      && s.body == (if sendFault.None? then body + [Encrypted(first)] else body)
      && errs[0] == (if sendFault.None? then None else Some(ReplyFault(sendFault.value)))
      && (forall i :: 1 <= i < |attempts| ==> errs[i] == Some(AlreadyResponded))
  {
    var s1 := Respond(sendFault, WriterState(None, body), attempts[0].msg, attempts[0].now).1;
    AnsweredKeepsRefusing(sendFault, s1, attempts[1..]);
  }

  /** The HTTP response body, a log of everything written to it. */
  class ResponseBody {
    var written: seq<Chunk>

    constructor ()
      ensures written == []
    {
      written := [];
    }

    method Write(data: Chunk)
      modifies this
      ensures written == old(written) + [data]
    {
      written := written + [data];
    }
  }

  /** The reply writer of one request. */
  class ResponseWriter {
    const body: ResponseBody
    const sendFault: Option<string>
    var history: Option<ReplyMessage>

    constructor (body: ResponseBody, sendFault: Option<string>)
      ensures this.body == body && this.sendFault == sendFault && history == None
    {
      this.body := body;
      this.sendFault := sendFault;
      history := None;
    }

    function State(): WriterState
      reads this, body
    {
      WriterState(history, body.written)
    }

    method Response(msg: ReplyMessage, now: int) returns (err: Option<Error>)
      modifies this, body
      ensures (err, State()) == Respond(sendFault, old(State()), msg, now)
    {
      if history.Some? {
        return Some(AlreadyResponded);
      }
      var stamped := msg.(createTime := now);
      history := Some(stamped);
      if sendFault.Some? {
        return Some(ReplyFault(sendFault.value));
      }
      body.Write(Encrypted(stamped));
      err := None;
    }

    method ResponseText(text: string, now: int) returns (err: Option<Error>)
      modifies this, body
      ensures (err, State()) == Respond(sendFault, old(State()), TextMessage(text), now)
    {
      err := Response(TextMessage(text), now);
    }

    method ResponseImage(mediaId: string, now: int) returns (err: Option<Error>)
      modifies this, body
      ensures (err, State()) == Respond(sendFault, old(State()), ImageMessage(mediaId), now)
    {
      err := Response(ImageMessage(mediaId), now);
    }

    method ResponseVoice(mediaId: string, now: int) returns (err: Option<Error>)
      modifies this, body
      ensures (err, State()) == Respond(sendFault, old(State()), VoiceMessage(mediaId), now)
    {
      err := Response(VoiceMessage(mediaId), now);
    }

    method ResponseVideo(mediaId: string, title: string, description: string, now: int) returns (err: Option<Error>)
      modifies this, body
      ensures (err, State()) == Respond(sendFault, old(State()), VideoMessage(mediaId, title, description), now)
    {
      err := Response(VideoMessage(mediaId, title, description), now);
    }

    method ResponseMusic(music: Music, now: int) returns (err: Option<Error>)
      modifies this, body
      ensures (err, State()) == Respond(sendFault, old(State()), MusicMessage(music), now)
    {
      err := Response(MusicMessage(music), now);
    }

    /** Converts the articles one by one into a fresh array, then replies with the list. */
    method ResponseArticles(articles: seq<Article>, now: int) returns (err: Option<Error>)
      modifies this, body
      ensures (err, State()) == Respond(sendFault, old(State()), NewsMessage(articles), now)
    {
      var arts := new ResArticle[|articles|](_ => ResArticle("", "", "", ""));
      var i := 0;
      while i < |articles|
        modifies arts
        invariant 0 <= i <= |articles|
        invariant forall k :: 0 <= k < i ==> arts[k] == ToResArticle(articles[k])
      {
        var art := articles[i];
        arts[i] := ResArticle(art.title, art.description, art.url, art.picUrl);
        i := i + 1;
      }
      assert arts[..] == ToResArticles(articles);
      var msg := Bare.(msgType := NewsReply, articles := Some(arts[..]));
      assert msg == NewsMessage(articles);
      err := Response(msg, now);
    }
  }
}
