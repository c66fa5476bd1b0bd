/**
 * The HTTP handlers of the API as sequential procedures over the store: which
 * status each one answers with, what it writes, and the simulated figures it
 * reports. `Math.random()` draws are parameters in [0, 1), taken in the order
 * the handler makes them.
 */
module Routes {
  import opened Common
  import opened Js
  import opened JsMap
  import opened Strings
  import Schema
  import opened Storage
  import A = AssemblyAiService

  // ---------------------------------------------------------------------------
  // The route file's own `detectSentiment`

  const KeywordFrustrationWords: seq<string> := ["frustrated", "angry", "terrible", "awful", "hate", "broken", "stupid"]
  const KeywordPositiveWords: seq<string> := ["great", "good", "excellent", "perfect", "love", "amazing"]

  /**
   * The route file declares its own `detectSentiment` beside the imported one:
   * on the lower-cased text any frustration word wins, then any positive word;
   * it has no negative list, so it never answers negative.
   */
  function KeywordSentiment(text: string): (r: A.Sentiment)
    ensures r != A.Negative
    ensures r == A.Frustrated <==> A.Mentions(Lower(text), KeywordFrustrationWords)
    ensures r == A.Positive <==>
      !A.Mentions(Lower(text), KeywordFrustrationWords) && A.Mentions(Lower(text), KeywordPositiveWords)
    ensures r == A.Neutral <==>
      !A.Mentions(Lower(text), KeywordFrustrationWords) && !A.Mentions(Lower(text), KeywordPositiveWords)
  {
    var lowerText := Lower(text);
    if A.Mentions(lowerText, KeywordFrustrationWords) then A.Frustrated
    else if A.Mentions(lowerText, KeywordPositiveWords) then A.Positive
    else A.Neutral
  }

  /** Every word of a shorter list that is also in a longer one carries its mentions over. */
  lemma MentionsSublist(text: string, small: seq<string>, big: seq<string>)
    requires forall w :: w in small ==> w in big
    ensures A.Mentions(text, small) ==> A.Mentions(text, big)
  {
    if A.Mentions(text, small) {
      var i :| 0 <= i < |small| && Includes(text, small[i]);
      assert small[i] in small;
      var j :| 0 <= j < |big| && big[j] == small[i];
    }
  }

  /** The keyword lists are the first entries of the scoring variant's lists. */
  lemma KeywordListsArePrefixes()
    ensures KeywordFrustrationWords == A.FrustrationWords[..7]
    ensures KeywordPositiveWords == A.PositiveWords[..6]
  {
  }

  /** When the keyword variant sees frustration, so does the scoring variant. */
  lemma KeywordFrustrationAgrees(text: string)
    requires KeywordSentiment(text) == A.Frustrated
    ensures A.DetectSentiment(text) == A.Frustrated
  {
    KeywordListsArePrefixes();
    MentionsSublist(Lower(text), KeywordFrustrationWords, A.FrustrationWords);
  }

  /** When the scoring variant finds no listed word at all, the keyword variant is neutral too. */
  lemma ScoringNeutralIsKeywordNeutral(text: string)
    requires A.DetectSentiment(text) == A.Neutral
    ensures KeywordSentiment(text) == A.Neutral
  {
    KeywordListsArePrefixes();
    MentionsSublist(Lower(text), KeywordFrustrationWords, A.FrustrationWords);
    MentionsSublist(Lower(text), KeywordPositiveWords, A.PositiveWords);
  }

  /** A word whose first letter the text lacks does not occur in it. */
  lemma NotIncluded(text: string, w: string)
    requires |w| > 0 && w[0] !in text
    ensures !Includes(text, w)
  {
    forall i | 0 <= i && i + |w| <= |text|
      ensures !OccursAt(text, w, i)
    {
      assert text[i..i + |w|][0] == text[i];
    }
  }

  /** "worst" is frustrated for the scoring variant, whose list has it. */
  lemma ScoringCallsWorstFrustrated()
    ensures A.DetectSentiment("worst") == A.Frustrated
  {
    A.FrustrationWordAnywhere(7, "", "");
    assert "" + A.FrustrationWords[7] + "" == "worst";
  }

  /** The two bindings disagree: "worst" is neutral for the keyword variant. */
  lemma KeywordCallsWorstNeutral()
    ensures KeywordSentiment("worst") == A.Neutral
  {
    assert Lower("worst") == "worst";
    forall i | 0 <= i < |KeywordFrustrationWords|
      ensures !Includes("worst", KeywordFrustrationWords[i])
    {
      if |KeywordFrustrationWords[i]| <= 5 {
        NotIncluded("worst", KeywordFrustrationWords[i]);
      }
    }
    forall i | 0 <= i < |KeywordPositiveWords|
      ensures !Includes("worst", KeywordPositiveWords[i])
    {
      if |KeywordPositiveWords[i]| <= 5 {
        NotIncluded("worst", KeywordPositiveWords[i]);
      }
    }
  }

  /**
   * Which `detectSentiment` a handler calls: the route file imports the scoring
   * variant and declares the keyword variant under the same name.
   */
  datatype SentimentBinding = Scoring | Keyword

  /** The frustration words the bound classifier looks for. */
  function FrustrationList(binding: SentimentBinding): seq<string>
  {
    match binding
    case Scoring => A.FrustrationWords
    case Keyword => KeywordFrustrationWords
  }

  function Classify(binding: SentimentBinding, text: string): (r: A.Sentiment)
    ensures binding == Keyword ==> r != A.Negative
    ensures r == A.Frustrated <==> A.Mentions(Lower(text), FrustrationList(binding))
  {
    match binding
    case Scoring => A.DetectSentiment(text)
    case Keyword => KeywordSentiment(text)
  }

  // ---------------------------------------------------------------------------
  // generateAIResponse and generateSentimentTimeline

  /** One canned reply: what the assistant says and the reasoning it shows. */
  datatype Reply = Reply(content: string, reasoning: seq<string>)

  const TroubleshootText := "I understand your concern. Let me help you troubleshoot this issue step by step."
  const HistoryText := "Thank you for providing that information. Based on your account history, I can see similar issues were resolved previously."
  const DiagnosticText := "I've analyzed your account and I'm detecting some network connectivity patterns. Let me guide you through a quick diagnostic."

  const Replies: seq<Reply> := [
    Reply(TroubleshootText, [
      "Detected frustration in voice tone",
      "Cross-referenced with area outage reports",
      "Applied escalation prevention strategy",
      "Initiated structured troubleshooting workflow"]),
    Reply(HistoryText, [
      "Accessed customer history",
      "Identified pattern in previous issues",
      "Applied learned resolution strategy"]),
    Reply(DiagnosticText, [
      "Performed network analysis",
      "Detected connectivity patterns",
      "Initiated diagnostic workflow"])
  ]

  /** `generateAIResponse(transcription)`: one of the canned replies, picked by the draw alone. */
  function GenerateAIResponse(transcription: Value, draw: real): (r: Reply)
    requires 0.0 <= draw < 1.0
    ensures r in Replies
  {
    Replies[FloorScaled(draw, |Replies|)]
  }

  /** The reply depends on the draw only: two transcriptions get the same reply for the same draw. */
  lemma ReplyIgnoresTranscription(t1: Value, t2: Value, draw: real)
    requires 0.0 <= draw < 1.0
    ensures GenerateAIResponse(t1, draw) == GenerateAIResponse(t2, draw)
  {
  }

  /** Every canned reply is reachable, whatever the transcription. */
  lemma EveryReplyReachable(i: nat, transcription: Value)
    requires i < |Replies|
    ensures GenerateAIResponse(transcription, i as real / 3.0) == Replies[i]
  {
    var draw := i as real / 3.0;
    assert draw * 3.0 == i as real;
    assert FloorScaled(draw, 3) == i;
  }

  /** One point of the sentiment timeline. */
  datatype TimelineEntry = TimelineEntry(sentiment: A.Sentiment, value: real)

  const TimelineLabels: seq<A.Sentiment> := [A.Positive, A.Neutral, A.Negative]

  /** One loop iteration: a label drawn from the three, then a value in [0, 100). */
  function TimelinePoint(labelDraw: real, valueDraw: real): (e: TimelineEntry)
    requires 0.0 <= labelDraw < 1.0 && 0.0 <= valueDraw < 1.0
    ensures e.sentiment in TimelineLabels && e.sentiment != A.Frustrated
    ensures 0.0 <= e.value < 100.0
  {
    TimelineEntry(TimelineLabels[FloorScaled(labelDraw, |TimelineLabels|)], valueDraw * 100.0)
  }

  predicate Draws(draws: seq<real>)
  {
    forall i :: 0 <= i < |draws| ==> 0.0 <= draws[i] < 1.0
  }

  /**
   * `generateSentimentTimeline()`: seven iterations, each drawing a label and a value;
   * `draws` holds the fourteen draws in the order the loop makes them.
   */
  method GenerateSentimentTimeline(draws: seq<real>) returns (timeline: seq<TimelineEntry>)
    requires |draws| == 14 && Draws(draws)
    ensures |timeline| == 7
    ensures forall i :: 0 <= i < 7 ==> timeline[i] == TimelinePoint(draws[2 * i], draws[2 * i + 1])
    ensures forall e :: e in timeline ==> e.sentiment in TimelineLabels && 0.0 <= e.value < 100.0
  {
    timeline := [];
    for i := 0 to 7
      invariant |timeline| == i
      invariant forall j :: 0 <= j < i ==> timeline[j] == TimelinePoint(draws[2 * j], draws[2 * j + 1])
    {
      timeline := timeline + [TimelinePoint(draws[2 * i], draws[2 * i + 1])];
    }
  }

  // ---------------------------------------------------------------------------
  // Responses

  /** The JSON bodies the handlers send. */
  datatype Body =
    | Notice(message: string)
    | Invalid(message: string, errors: seq<Schema.Issue>)
    | One(record: Record)
    | Many(records: seq<Record>)
    | SpeechReply(response: Reply, confidence: int, latency: int, sentiment: string)
    | AudioReply(transcription: string, audioConfidence: int, audioResponse: Reply, audioSentiment: string, audioLatency: int)
    | AnalyticsReport(responseTime: int, accuracy: int, escalationRate: int, sentimentTimeline: seq<TimelineEntry>, activeFeatures: Value)

  datatype Response = Response(status: int, body: Body)

  const NotFound := Response(404, Notice("Conversation not found"))

  /** The simulated figures of one speech request. */
  datatype Simulation = Simulation(reply: Reply, confidence: int, latency: int)

  /**
   * The three draws of process-speech: a delay of 200 to 400 ms, the canned reply,
   * and a confidence of 90 to 99; the latency reported is the delay rounded down.
   */
  function Simulate(delayDraw: real, replyDraw: real, confidenceDraw: real, transcription: Value): (s: Simulation)
    requires 0.0 <= delayDraw < 1.0 && 0.0 <= replyDraw < 1.0 && 0.0 <= confidenceDraw < 1.0
    ensures s.reply in Replies
    ensures 90 <= s.confidence <= 99
    ensures 200 <= s.latency <= 399
  {
    var processingDelay := delayDraw * 200.0 + 200.0;
    Simulation(GenerateAIResponse(transcription, replyDraw), FloorScaled(confidenceDraw, 10) + 90, processingDelay.Floor)
  }

  /** The session record process-speech hands to the store. */
  function SpeechSession(conversationId: Value, transcription: Value, s: Simulation): (r: Record)
    ensures r.Keys == {"conversationId", "transcription", "aiResponse", "confidence", "latency"}
    ensures r["conversationId"] == conversationId && r["transcription"] == transcription
    ensures r["aiResponse"] == VStr(s.reply.content)
    ensures r["confidence"] == VNum(s.confidence as real) && r["latency"] == VNum(s.latency as real)
  {
    map[
      "conversationId" := conversationId,
      "transcription" := transcription,
      "aiResponse" := VStr(s.reply.content),
      "confidence" := VNum(s.confidence as real),
      "latency" := VNum(s.latency as real)]
  }

  /** A session written under a string conversation id is listed for that conversation. */
  lemma SpeechSessionIsListed(t: Table<Record>, id: string, c: string, transcription: Value, s: Simulation, now: int)
    requires t.Valid() && id !in t.entries
    ensures var session := Stamped(SpeechSession(VStr(c), transcription, s), id, now);
      SessionsWith(t.Set(id, session).Values(), c) == SessionsWith(t.Values(), c) + [session]
  {
    var record := SpeechSession(VStr(c), transcription, s);
    StampedKeepsOwner(record, id, now, c);
    SessionsAfterCreate(t, id, Stamped(record, id, now), c);
  }

  // ---------------------------------------------------------------------------
  // process-audio: no store access, so a function of the request and the provider's answer

  /**
   * `POST /api/process-audio`: 400 without audio data; 500 when transcription fails;
   * otherwise the transcript text, its confidence as a rounded percentage, a canned
   * reply, the sentiment of the text and a latency of 200 to 299.
   */
  function ProcessAudio(body: Record, outcome: A.ProviderOutcome, replyDraw: real, latencyDraw: real,
                        binding: SentimentBinding): (res: Response)
    requires 0.0 <= replyDraw < 1.0 && 0.0 <= latencyDraw < 1.0
    ensures !TruthyProp(body, "audioData") ==> res == Response(400, Notice("Audio data is required"))
    ensures TruthyProp(body, "audioData") && A.TranscribeAudio(outcome).Err? ==>
      res == Response(500, Notice("Failed to process audio"))
    ensures res.status == 200 <==> TruthyProp(body, "audioData") && A.TranscribeAudio(outcome).Ok?
    ensures res.status == 200 ==>
      var result := A.TranscribeAudio(outcome).value;
      && res.body.AudioReply?
      && res.body.transcription == result.text
      && res.body.audioConfidence == Round(result.confidence * 100.0)
      && res.body.audioResponse in Replies
      && res.body.audioSentiment == Classify(binding, result.text).Label()
      && 200 <= res.body.audioLatency <= 299
  {
    if !TruthyProp(body, "audioData") then Response(400, Notice("Audio data is required"))
    else
      match A.TranscribeAudio(outcome)
      case Err(_) => Response(500, Notice("Failed to process audio"))
      case Ok(result) =>
        var aiResponse := GenerateAIResponse(VStr(result.text), replyDraw);
        var sentiment := Classify(binding, result.text);
        Response(200, AudioReply(
          result.text,
          Round(result.confidence * 100.0),
          aiResponse,
          sentiment.Label(),
          FloorScaled(latencyDraw, 100) + 200))
  }

  /** A provider confidence in [0, 1] is reported as a whole percentage in [0, 100]. */
  lemma AudioConfidenceIsPercentage(body: Record, outcome: A.ProviderOutcome, replyDraw: real, latencyDraw: real,
                                    binding: SentimentBinding)
    requires 0.0 <= replyDraw < 1.0 && 0.0 <= latencyDraw < 1.0
    requires ProcessAudio(body, outcome, replyDraw, latencyDraw, binding).status == 200
    requires 0.0 <= A.TranscribeAudio(outcome).value.confidence <= 1.0
    ensures 0 <= ProcessAudio(body, outcome, replyDraw, latencyDraw, binding).body.audioConfidence <= 100
  {
  }

  /** A transcript in the provider's error state always ends in 500, with the provider's message dropped. */
  lemma ProviderErrorIsServerError(body: Record, t: A.Transcript, replyDraw: real, latencyDraw: real,
                                   binding: SentimentBinding)
    requires 0.0 <= replyDraw < 1.0 && 0.0 <= latencyDraw < 1.0
    requires TruthyProp(body, "audioData") && t.status == A.Error
    ensures ProcessAudio(body, A.Delivered(t), replyDraw, latencyDraw, binding) == Response(500, Notice("Failed to process audio"))
  {
  }

  // ---------------------------------------------------------------------------
  // Handlers that use the store

  /** `GET /api/conversations` */
  method GetConversations(store: MemStorage) returns (res: Response)
    requires store.Valid()
    ensures res == Response(200, Many(store.conversations.Values()))
  {
    var conversations := store.GetConversations();
    res := Response(200, Many(conversations));
  }

  /** `GET /api/conversations/:id`: 404 exactly when the store has no such conversation. */
  method GetConversation(store: MemStorage, id: string) returns (res: Response)
    requires store.Valid()
    ensures res.status == 404 <==> id !in store.conversations.entries
    ensures res.status == 404 ==> res == NotFound
    ensures res.status != 404 ==> res == Response(200, One(store.conversations.entries[id]))
  {
    var conversation := store.GetConversation(id);
    if conversation.None? {
      return NotFound;
    }
    res := Response(200, One(conversation.value));
  }

  /**
   * `POST /api/conversations`: a body that fails the insert shape gets 400 with the
   * violations and writes nothing; a valid one is stored, stripped of unknown keys
   * and without any declared default filled in, and returned with 201.
   */
  method PostConversation(store: MemStorage, body: Record, id: string, now: int) returns (res: Response)
    requires store.Valid()
    modifies store
    ensures store.Valid()
    ensures store.sessions == old(store.sessions) && store.customers == old(store.customers)
    ensures Schema.Parse(Schema.InsertConversation, body).Err? ==>
      && res == Response(400, Invalid("Invalid data", Schema.Parse(Schema.InsertConversation, body).error))
      && store.conversations == old(store.conversations)
    ensures Schema.Parse(Schema.InsertConversation, body).Ok? ==>
      var created := Stamped(Schema.Parse(Schema.InsertConversation, body).value, id, now);
      && res == Response(201, One(created))
      && store.conversations == old(store.conversations).Set(id, created)
  {
    var data := Schema.Parse(Schema.InsertConversation, body);
    if data.Err? {
      return Response(400, Invalid("Invalid data", data.error));
    }
    var conversation := store.CreateConversation(data.value, id, now);
    res := Response(201, One(conversation));
  }

  /**
   * `PATCH /api/conversations/:id`: the body goes to the store unchecked; an unknown
   * id gets 404 and creates nothing.
   */
  method PatchConversation(store: MemStorage, id: string, updates: Record) returns (res: Response)
    requires store.Valid()
    modifies store
    ensures store.Valid()
    ensures store.sessions == old(store.sessions) && store.customers == old(store.customers)
    ensures id !in old(store.conversations).entries ==> res == NotFound && store.conversations == old(store.conversations)
    ensures id in old(store.conversations).entries ==>
      var updated := Spread(old(store.conversations).entries[id], updates);
      && res == Response(200, One(updated))
      && store.conversations == old(store.conversations).Set(id, updated)
  {
    var conversation := store.UpdateConversation(id, updates);
    if conversation.None? {
      return NotFound;
    }
    res := Response(200, One(conversation.value));
  }

  /**
   * `POST /api/process-speech`: 400 and no write without a truthy transcription;
   * otherwise one session is written exactly when `conversationId` is truthy, and the
   * reply carries the simulated figures and the sentiment of the transcription. A
   * transcription that is truthy but not a string has no `toLowerCase`, so the
   * sentiment step throws after the session was written and the answer is 500.
   */
  method ProcessSpeech(store: MemStorage, body: Record, delayDraw: real, replyDraw: real, confidenceDraw: real,
                       binding: SentimentBinding, sessionId: string, now: int) returns (res: Response)
    requires store.Valid()
    requires 0.0 <= delayDraw < 1.0 && 0.0 <= replyDraw < 1.0 && 0.0 <= confidenceDraw < 1.0
    modifies store
    ensures store.Valid()
    ensures store.conversations == old(store.conversations) && store.customers == old(store.customers)
    ensures res.status in {200, 400, 500}
    ensures !TruthyProp(body, "transcription") ==>
      res == Response(400, Notice("Transcription is required")) && store.sessions == old(store.sessions)
    ensures TruthyProp(body, "transcription") ==>
      var s := Simulate(delayDraw, replyDraw, confidenceDraw, body["transcription"]);
      && (TruthyProp(body, "conversationId") ==>
            store.sessions == old(store.sessions).Set(sessionId,
              Stamped(SpeechSession(body["conversationId"], body["transcription"], s), sessionId, now)))
      && (!TruthyProp(body, "conversationId") ==> store.sessions == old(store.sessions))
      && (body["transcription"].VStr? ==>
            res == Response(200, SpeechReply(s.reply, s.confidence, s.latency,
              Classify(binding, body["transcription"].s).Label())))
      && (!body["transcription"].VStr? ==> res == Response(500, Notice("Failed to process speech")))
  {
    if !TruthyProp(body, "transcription") {
      return Response(400, Notice("Transcription is required"));
    }
    var transcription := body["transcription"];
    var processingDelay := delayDraw * 200.0 + 200.0;
    var aiResponse := GenerateAIResponse(transcription, replyDraw);
    var confidence := FloorScaled(confidenceDraw, 10) + 90;
    var latency := processingDelay.Floor;
    var s := Simulation(aiResponse, confidence, latency);
    assert s == Simulate(delayDraw, replyDraw, confidenceDraw, transcription);
    if TruthyProp(body, "conversationId") {
      var _ := store.CreateSession(SpeechSession(body["conversationId"], transcription, s), sessionId, now);
    }
    if !transcription.VStr? {
      return Response(500, Notice("Failed to process speech"));
    }
    var sentiment := Classify(binding, transcription.s);
    res := Response(200, SpeechReply(aiResponse, confidence, latency, sentiment.Label()));
  }

  /** `GET /api/customers` */
  method GetCustomers(store: MemStorage) returns (res: Response)
    requires store.Valid()
    ensures res == Response(200, Many(store.customers.Values()))
  {
    var customers := store.GetCustomers();
    res := Response(200, Many(customers));
  }

  /** The fixed feature flags the analytics report carries. */
  const ActiveFeatures := VObj(map[
    "crossSessionMemory" := VObj(map["active" := VBool(true), "progress" := VNum(85.0)]),
    "dynamicLearning" := VObj(map["active" := VBool(true), "progress" := VNum(60.0)]),
    "proactiveSuggestions" := VObj(map["active" := VBool(true), "suggestions" := VNum(3.0)])])

  /**
   * `GET /api/analytics`: `draws` are the eighteen draws in evaluation order —
   * response time, accuracy, satisfaction, escalation rate, then the timeline's fourteen.
   */
  method Analytics(draws: seq<real>) returns (res: Response)
    requires |draws| == 18 && Draws(draws)
    ensures res.status == 200 && res.body.AnalyticsReport?
    ensures 250 <= res.body.responseTime <= 349
    ensures 92 <= res.body.accuracy <= 99
    ensures 10 <= res.body.escalationRate <= 19
    ensures |res.body.sentimentTimeline| == 7
    ensures forall i :: 0 <= i < 7 ==> res.body.sentimentTimeline[i] == TimelinePoint(draws[4 + 2 * i], draws[5 + 2 * i])
    ensures res.body.activeFeatures == ActiveFeatures
  {
    var responseTime := FloorScaled(draws[0], 100) + 250;
    var accuracy := FloorScaled(draws[1], 8) + 92;
    var escalationRate := FloorScaled(draws[3], 10) + 10;
    var timelineDraws := draws[4..];
    var timeline := GenerateSentimentTimeline(timelineDraws);
    res := Response(200, AnalyticsReport(responseTime, accuracy, escalationRate, timeline, ActiveFeatures));
  }

  // ---------------------------------------------------------------------------
  // Properties across requests

  /** A conversation created by POST is what a following GET of its id returns. */
  method PostThenGet(store: MemStorage, body: Record, id: string, now: int) returns (posted: Response, fetched: Response)
    requires store.Valid()
    modifies store
    ensures posted.status == 201 ==> fetched == Response(200, posted.body)
    ensures posted.status == 400 ==> store.conversations == old(store.conversations)
  {
    posted := PostConversation(store, body, id, now);
    fetched := GetConversation(store, id);
  }

  /**
   * The store fills no declared default: a body with only a customer name is valid,
   * and the stored conversation has that name, an id and a creation time — no
   * status, messages, sentiment or duration, although the schema declares defaults for them.
   */
  lemma CreatedConversationLacksDefaults(name: string, id: string, now: int)
    ensures Schema.Parse(Schema.InsertConversation, map["customerName" := VStr(name)]) == Ok(map["customerName" := VStr(name)])
    ensures Stamped(map["customerName" := VStr(name)], id, now).Keys == {"customerName", "id", "createdAt"}
    ensures Schema.DefaultOf(Schema.Conversations, Schema.Status) == Schema.Literal(VStr("active"))
  {
    Schema.NameOnlyIsValid(name);
    Schema.ConversationDefaults();
  }
}
