/**
 Client-side runs of the relay: a fresh process, then a few requests,
 reasoning only from the contracts of `Server` and of the functions they
 are specified by.
 */
module Scenarios {
  import opened Text
  import opened Relay

  /** An upstream response whose first candidate's first part says `text`. */
  function Answer(text: string): Upstream {
    Responded(Some([Candidate(Some(Content(Some([ResponsePart(Some(text))]))))]))
  }

  lemma AnswerExtracts(text: string)
    requires text != []
    ensures ExtractReply(Answer(text)) == Some(text)
  {
    assert FirstPartText(Answer(text)) == Some(text);
  }

  lemma FormatHiThere()
    ensures FormatBotReply("hi there") == "Hi there"
  {
    var text := "hi there";
    assert text[1..] == "i there";
    TrimOfTrimmed("i there");
    assert FormatBotReply(text) == [Upper('h')] + "i there";
  }

  lemma FormatBye()
    ensures FormatBotReply("bye") == "Bye"
  {
    var text := "bye";
    assert text[1..] == "ye";
    TrimOfTrimmed("ye");
    assert FormatBotReply(text) == [Upper('b')] + "ye";
  }

  /** A user message answered by the service: 201, then the listing holds
      the user's record followed by the normalised reply. */
  method AnsweredPost() returns (reply: Reply, listed: seq<Message>)
    ensures reply == Reply(201, Success)
    ensures listed == [Message("Hi", "Alice"), Message("Hi there", BOT)]
  {
    var server := new Server();
    FirstExchange();
    AnswerExtracts("hi there");
    var sent;
    reply, sent := server.PostMessage(Some("Hi"), Some("Alice"), Answer("hi there"));
    listed := server.ListMessages();
  }

  /** The service answers with no candidates: 500, and only the user's
      record is kept. */
  method UnansweredPost() returns (reply: Reply, listed: seq<Message>)
    ensures reply == Reply(500, Error(UPSTREAM_ERROR))
    ensures listed == [Message("Hi", "Alice")]
  {
    var server := new Server();
    var sent;
    reply, sent := server.PostMessage(Some("Hi"), Some("Alice"), Responded(Some([])));
    listed := server.ListMessages();
  }

  /** An empty text is refused with 400 and nothing is stored or sent,
      whatever the service would have answered. */
  method EmptyTextPost(upstream: Upstream) returns (reply: Reply, sent: Option<seq<Turn>>, listed: seq<Message>)
    ensures reply == Reply(400, Error(REQUIRED_ERROR))
    ensures sent == None && listed == []
  {
    var server := new Server();
    reply, sent := server.PostMessage(Some(""), Some("Alice"), upstream);
    listed := server.ListMessages();
  }

  /** The transcript after the first answered exchange. */
  const EXCHANGE: seq<Message> := [Message("Hi", "Alice"), Message("Hi there", BOT)]

  /** The first answered exchange on an empty transcript. */
  lemma FirstExchange()
    ensures var o := Post([], Some("Hi"), Some("Alice"), Answer("hi there"));
      o.reply == Reply(201, Success) && o.transcript == EXCHANGE
  {
    AnswerExtracts("hi there");
    FormatHiThere();
    var o := Post([], Some("Hi"), Some("Alice"), Answer("hi there"));
    assert Present(Some("Hi")) && Present(Some("Alice"));
    assert o.reply.status == 201;
    assert o.transcript == [] + [Message("Hi", "Alice"), Message("Hi there", BOT)];
  }

  /** The second exchange replays the first one before the new user turn. */
  lemma SecondExchange()
    ensures var o := Post(EXCHANGE, Some("Bye"), Some("Alice"), Answer("bye"));
      && o.reply == Reply(201, Success)
      && o.transcript == EXCHANGE + [Message("Bye", "Alice"), Message("Bye", BOT)]
      && o.sent == Some([Turn(USER, ["Hi"]), Turn(MODEL, ["Hi there"]), Turn(USER, ["Bye"])])
  {
    SentIsReplay(EXCHANGE, Some("Bye"), Some("Alice"), Answer("bye"));
    var o := Post(EXCHANGE, Some("Bye"), Some("Alice"), Answer("bye"));
    assert "Alice" != BOT;
    assert o.sent == Some(ToHistory(EXCHANGE) + [Turn(USER, ["Bye"])]);
    ReplayOfExchange();
    assert [Turn(USER, ["Hi"]), Turn(MODEL, ["Hi there"])] + [Turn(USER, ["Bye"])]
        == [Turn(USER, ["Hi"]), Turn(MODEL, ["Hi there"]), Turn(USER, ["Bye"])];
    AnswerExtracts("bye");
    FormatBye();
  }

  lemma ReplayOfExchange()
    ensures ToHistory(EXCHANGE) == [Turn(USER, ["Hi"]), Turn(MODEL, ["Hi there"])]
  {
    var history := ToHistory(EXCHANGE);
    assert history[0].role == USER && history[1].role == MODEL;
  }

  /** Two answered posts: both are accepted, the listing holds both
      exchanges in order, and the second call replays the whole first
      exchange before the new user turn. */
  method TwoExchanges() returns (firstReply: Reply, secondReply: Reply, second: Option<seq<Turn>>, listed: seq<Message>)
    ensures firstReply == secondReply == Reply(201, Success)
    ensures listed == EXCHANGE + [Message("Bye", "Alice"), Message("Bye", BOT)]
    ensures second == Some([Turn(USER, ["Hi"]), Turn(MODEL, ["Hi there"]), Turn(USER, ["Bye"])])
  {
    var server := new Server();
    FirstExchange();
    SecondExchange();
    var first;
    firstReply, first := server.PostMessage(Some("Hi"), Some("Alice"), Answer("hi there"));
    assert server.messages == EXCHANGE;
    secondReply, second := server.PostMessage(Some("Bye"), Some("Alice"), Answer("bye"));
    assert secondReply == Reply(201, Success);
    assert server.messages == EXCHANGE + [Message("Bye", "Alice"), Message("Bye", BOT)];
    listed := server.ListMessages();
  }
}
