/**
 The message relay of backend/index.js: a process-wide, append-only chat
 transcript, the `GET /messages` handler that lists it, and the
 `POST /messages` handler that validates a message, stores it, replays the
 whole transcript to the generation service as role-tagged turns, and
 stores the normalised reply.

 The call to the generation service is not performed here: its outcome is
 an input of the handler (`Upstream`), and the handler returns the history
 it sends, so that what is sent can be stated.
 */
module Relay {
  import opened Text

  datatype Option<T> = None | Some(value: T)

  /** A transcript record `{text, sender}`; the display-only `time` is not modelled. */
  datatype Message = Message(text: string, sender: string)

  /** The sender name that marks a generated reply. */
  const BOT: string := "Bot"

  /** The two roles of a replayed turn. */
  const MODEL: string := "model"
  const USER: string := "user"

  /** One turn of the history sent upstream: `{role, parts: [{text}]}`. */
  datatype Turn = Turn(role: string, parts: seq<string>)

  /* The upstream response `{candidates: [{content: {parts: [{text}]}}]}`.
     Every level may be absent; a JSON `null` element behaves as an element
     whose fields are all absent. */
  datatype ResponsePart = ResponsePart(text: Option<string>)
  datatype Content = Content(parts: Option<seq<ResponsePart>>)
  datatype Candidate = Candidate(content: Option<Content>)

  /** What the generation call produced: a failure of the call itself (no
      connection, or a non-2xx status, which the HTTP client raises), or a
      response body. */
  datatype Upstream = TransportFailure | Responded(candidates: Option<seq<Candidate>>)

  /** The JSON body of a handler's answer. */
  datatype Body = Success | Error(message: string)
  datatype Reply = Reply(status: int, body: Body)

  const REQUIRED_ERROR: string := "Text and sender are required"
  const UPSTREAM_ERROR: string := "Failed to get response from Google AI"

  /** A request field passes the handler's truthiness check: the falsy
      string values are an absent field and the empty string. */
  predicate Present(field: Option<string>): (p: bool)
    ensures !p <==> field == None || field == Some("")
    ensures p ==> |field.value| > 0
  {
    field.Some? && field.value != []
  }

  /** Every record has a non-empty text and sender. */
  ghost predicate WellFormed(transcript: seq<Message>) {
    forall i :: 0 <= i < |transcript| ==> transcript[i].text != [] && transcript[i].sender != []
  }

  /** The turn a record is replayed as: its text as the only part, role
      "model" for a "Bot" record and "user" for any other sender. */
  function ToTurn(m: Message): (t: Turn)
    ensures t.parts == [m.text]
    ensures t.role == MODEL <==> m.sender == BOT
    ensures t.role == USER <==> m.sender != BOT
  {
    Turn(if m.sender == BOT then MODEL else USER, [m.text])
  }

  /** The history built from the transcript (`messages.map`): one turn per
      record, in order, carrying the record's text, with role "model"
      exactly for records whose sender is "Bot". */
  function ToHistory(transcript: seq<Message>): (h: seq<Turn>)
    ensures |h| == |transcript|
    ensures forall i :: 0 <= i < |h| ==>
      && h[i].parts == [transcript[i].text]
      && (h[i].role == MODEL || h[i].role == USER)
      && (h[i].role == MODEL <==> transcript[i].sender == BOT)
  {
    if transcript == [] then [] else [ToTurn(transcript[0])] + ToHistory(transcript[1..])
  }

  /** Replaying a longer transcript replays the shorter one first. */
  lemma {:induction false} ToHistoryAppend(a: seq<Message>, b: seq<Message>)
    ensures ToHistory(a + b) == ToHistory(a) + ToHistory(b)
  {
    if a != [] {
      assert (a + b)[1..] == a[1..] + b;
      ToHistoryAppend(a[1..], b);
    }
  }

  /** Replaying a prefix of a transcript gives a prefix of its replay. */
  lemma ToHistoryPrefix(a: seq<Message>, b: seq<Message>)
    requires a <= b
    ensures ToHistory(a) <= ToHistory(b)
  {
    var ha, hb := ToHistory(a), ToHistory(b);
    forall i | 0 <= i < |a| ensures ha[i] == hb[i] {
      assert a[i] == b[i];
    }
  }

  /** `candidates?.[0]?.content?.parts?.[0]?.text`: the text of the first
      part of the first candidate when every step of the path exists, and
      nothing when any step is missing. */
  function FirstPartText(upstream: Upstream): (r: Option<string>)
    ensures forall cs: seq<Candidate>, ps: seq<ResponsePart> ::
      upstream == Responded(Some(cs)) && |cs| > 0 && cs[0].content == Some(Content(Some(ps))) && |ps| > 0
      ==> r == ps[0].text
    ensures r.Some? ==>
      && upstream.Responded? && upstream.candidates.Some? && |upstream.candidates.value| > 0
      && var c := upstream.candidates.value[0];
         && c.content.Some? && c.content.value.parts.Some? && |c.content.value.parts.value| > 0
         && c.content.value.parts.value[0].text == r
    ensures upstream.TransportFailure? ==> r == None
  {
    if upstream.TransportFailure? || upstream.candidates.None? || upstream.candidates.value == [] then None
    else
      var candidate := upstream.candidates.value[0];
      if candidate.content.None? || candidate.content.value.parts.None? || candidate.content.value.parts.value == [] then None
      else candidate.content.value.parts.value[0].text
  }

  /** The reply text the handler accepts: the first candidate's first part
      text, and only when it is a non-empty string. */
  function ExtractReply(upstream: Upstream): (r: Option<string>)
    ensures upstream.TransportFailure? ==> r == None
    ensures r.Some? ==> r.value != [] && FirstPartText(upstream) == r
    ensures r.None? ==> FirstPartText(upstream).None? || FirstPartText(upstream) == Some([])
  {
    match FirstPartText(upstream)
    case Some(text) => if text == [] then None else Some(text)
    case None => None
  }

  /** What one `POST /messages` produces: the answer, the transcript
      afterwards, and the history sent upstream (None when none was sent). */
  datatype Outcome = Outcome(reply: Reply, transcript: seq<Message>, sent: Option<seq<Turn>>)

  /** `POST /messages` on a transcript, as a function of its inputs. */
  function Post(transcript: seq<Message>, text: Option<string>, sender: Option<string>, upstream: Upstream): (o: Outcome)
    // validation: 400, nothing stored, nothing sent
    ensures o.reply.status == 400 <==> !Present(text) || !Present(sender)
    ensures o.reply.status == 400 ==>
      o.reply.body == Error(REQUIRED_ERROR) && o.transcript == transcript && o.sent == None
    // past validation the user record is stored before anything is sent,
    // and the history sent is the replay of the transcript ending in it
    ensures o.reply.status != 400 ==>
      && |o.transcript| > |transcript|
      && o.transcript[|transcript|] == Message(text.value, sender.value)
      && o.sent == Some(ToHistory(o.transcript[..|transcript| + 1]))
    // generation failure: 500, only the user record was added
    ensures o.reply.status == 500 <==> Present(text) && Present(sender) && ExtractReply(upstream).None?
    ensures o.reply.status == 500 ==>
      o.reply.body == Error(UPSTREAM_ERROR) && o.transcript == transcript + [Message(text.value, sender.value)]
    // success: 201, the user record then the normalised reply
    ensures o.reply.status == 201 <==> Present(text) && Present(sender) && ExtractReply(upstream).Some?
    ensures o.reply.status == 201 ==>
      && o.reply.body == Success
      && o.transcript == transcript + [Message(text.value, sender.value),
                                       Message(FormatBotReply(ExtractReply(upstream).value), BOT)]
    // no other answer
    ensures o.reply.status in {400, 500, 201}
  {
    if !Present(text) || !Present(sender) then
      Outcome(Reply(400, Error(REQUIRED_ERROR)), transcript, None)
    else
      var user := Message(text.value, sender.value);
      var withUser := transcript + [user];
      var history := ToHistory(withUser);
      assert withUser[..|transcript| + 1] == withUser;
      match ExtractReply(upstream)
      case None =>
        Outcome(Reply(500, Error(UPSTREAM_ERROR)), withUser, Some(history))
      case Some(reply) =>
        var bot := Message(FormatBotReply(reply), BOT);
        var after := withUser + [bot];
        assert after[..|transcript| + 1] == withUser;
        Outcome(Reply(201, Success), after, Some(history))
  }

  /** Every post only appends at the end of the transcript, and keeps
      every record's text and sender non-empty. */
  lemma PostAppendOnly(transcript: seq<Message>, text: Option<string>, sender: Option<string>, upstream: Upstream)
    ensures transcript <= Post(transcript, text, sender, upstream).transcript
    ensures WellFormed(transcript) ==> WellFormed(Post(transcript, text, sender, upstream).transcript)
  {
    var o := Post(transcript, text, sender, upstream);
    if o.reply.status == 500 {
      assert o.transcript == transcript + [o.transcript[|transcript|]];
    } else if o.reply.status == 201 {
      var bot := o.transcript[|transcript| + 1];
      assert bot.text == FormatBotReply(ExtractReply(upstream).value);
      assert o.transcript == transcript + [o.transcript[|transcript|], bot];
    }
  }

  /** Past validation, the history sent is the replay of the transcript as
      it was, followed by the turn for the new user record. */
  lemma SentIsReplay(transcript: seq<Message>, text: Option<string>, sender: Option<string>, upstream: Upstream)
    requires Present(text) && Present(sender)
    ensures Post(transcript, text, sender, upstream).sent
         == Some(ToHistory(transcript) + [ToTurn(Message(text.value, sender.value))])
  {
    var user := Message(text.value, sender.value);
    ToHistoryAppend(transcript, [user]);
    assert ToHistory([user]) == [ToTurn(user)];
  }

  /** One request to `POST /messages`: its body fields and what the
      generation call produces for it. */
  datatype Request = Request(text: Option<string>, sender: Option<string>, upstream: Upstream)

  /** The transcript after a series of requests handled one after another. */
  function Run(transcript: seq<Message>, requests: seq<Request>): seq<Message>
    decreases |requests|
  {
    if requests == [] then transcript
    else
      var r := requests[0];
      Run(Post(transcript, r.text, r.sender, r.upstream).transcript, requests[1..])
  }

  /** Over any series of requests the transcript only grows at its end,
      by at most two records per request, and keeps every record well formed. */
  lemma {:induction false} RunAppendOnly(transcript: seq<Message>, requests: seq<Request>)
    ensures transcript <= Run(transcript, requests)
    ensures |Run(transcript, requests)| <= |transcript| + 2 * |requests|
    ensures WellFormed(transcript) ==> WellFormed(Run(transcript, requests))
    decreases |requests|
  {
    if requests != [] {
      var r := requests[0];
      var next := Post(transcript, r.text, r.sender, r.upstream).transcript;
      PostAppendOnly(transcript, r.text, r.sender, r.upstream);
      RunAppendOnly(next, requests[1..]);
    }
  }

  /** Full history is replayed on every call: the history a later post
      sends starts with the history an earlier post sent, followed by the
      earlier exchange's records and the new user turn, in stored order. */
  lemma ReplayExtends(transcript: seq<Message>, first: Request, second: Request)
    requires Present(first.text) && Present(first.sender)
    requires Present(second.text) && Present(second.sender)
    ensures
      var o1 := Post(transcript, first.text, first.sender, first.upstream);
      var o2 := Post(o1.transcript, second.text, second.sender, second.upstream);
      && o2.sent == Some(ToHistory(o1.transcript) + [ToTurn(Message(second.text.value, second.sender.value))])
      && o1.sent.value <= o2.sent.value
  {
    var o1 := Post(transcript, first.text, first.sender, first.upstream);
    SentIsReplay(o1.transcript, second.text, second.sender, second.upstream);
    ToHistoryPrefix(o1.transcript[..|transcript| + 1], o1.transcript);
  }

  /** The transcript held by the running process (`let messages = []`). */
  class Server {
    var messages: seq<Message>

    ghost predicate Valid()
      reads this
    {
      WellFormed(messages)
    }

    /** The transcript starts empty at process start. */
    constructor ()
      ensures Valid() && messages == []
    {
      messages := [];
    }

    /** `GET /messages`: the stored records in insertion order; a read only. */
    method ListMessages() returns (records: seq<Message>)
      ensures records == messages
    {
      records := messages;
    }

    /** `POST /messages`. Returns the answer and the history sent upstream. */
    method PostMessage(text: Option<string>, sender: Option<string>, upstream: Upstream)
      returns (reply: Reply, sent: Option<seq<Turn>>)
      requires Valid()
      modifies this
      ensures Valid()
      ensures old(messages) <= messages
      ensures var o := Post(old(messages), text, sender, upstream);
        reply == o.reply && messages == o.transcript && sent == o.sent
    {
      PostAppendOnly(messages, text, sender, upstream);
      if !Present(text) || !Present(sender) {
        return Reply(400, Error(REQUIRED_ERROR)), None;
      }
      // 1) store the user's message
      messages := messages + [Message(text.value, sender.value)];
      // 2) replay the whole transcript as role-tagged turns
      sent := Some(ToHistory(messages));
      // 3) take the reply text out of the response, or fail
      var extracted := ExtractReply(upstream);
      if extracted.None? {
        return Reply(500, Error(UPSTREAM_ERROR)), sent;
      }
      // 4) store the normalised reply
      messages := messages + [Message(FormatBotReply(extracted.value), BOT)];
      reply := Reply(201, Success);
    }
  }

  /** Two listings with no post in between return the same records. */
  method ListTwice(server: Server) returns (first: seq<Message>, second: seq<Message>)
    ensures first == second == server.messages
  {
    first := server.ListMessages();
    second := server.ListMessages();
  }
}
