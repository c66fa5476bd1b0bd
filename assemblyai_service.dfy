/**
 * The pure parts of the speech-to-text adapter: the four-label keyword sentiment
 * scorer, and the mapping from the provider's transcript (or its failure) to the
 * adapter's own result. The upload and transcribe calls themselves are a foreign
 * service; their outcome enters here as a value.
 */
module AssemblyAiService {
  import opened Common
  import opened Strings

  /** The four sentiment labels. */
  datatype Sentiment = Positive | Neutral | Negative | Frustrated
  {
    function Label(): string
    {
      match this
      case Positive => "positive"
      case Neutral => "neutral"
      case Negative => "negative"
      case Frustrated => "frustrated"
    }
  }

  const FrustrationWords: seq<string> :=
    ["frustrated", "angry", "terrible", "awful", "hate", "broken", "stupid", "worst", "horrible", "mad", "annoyed"]
  const NegativeWords: seq<string> :=
    ["bad", "poor", "disappointing", "wrong", "problem", "issue", "trouble", "difficult", "slow"]
  const PositiveWords: seq<string> :=
    ["great", "good", "excellent", "perfect", "love", "amazing", "wonderful", "fantastic", "helpful", "thank"]

  /** `words.some(word => text.includes(word))` */
  predicate Mentions(text: string, words: seq<string>)
  {
    exists i :: 0 <= i < |words| && Includes(text, words[i])
  }

  /** `words.some(word => text.includes(word))`: some listed word occurs in the text. */
  lemma MentionsSome(text: string, words: seq<string>)
    ensures Mentions(text, words) <==> exists w :: w in words && Includes(text, w)
    ensures words == [] ==> !Mentions(text, words)
  {
    if exists w :: w in words && Includes(text, w) {
      var w :| w in words && Includes(text, w);
      var i :| 0 <= i < |words| && words[i] == w;
    }
  }

  /** No word is listed twice. */
  ghost predicate Distinct(words: seq<string>)
  {
    forall i, j :: 0 <= i < j < |words| ==> words[i] != words[j]
  }

  /** The listed words that occur in `text`, each counted once. */
  ghost function Present(words: seq<string>, text: string): set<string>
  {
    set w | w in words && Includes(text, w)
  }

  /**
   * `words.filter(word => text.includes(word)).length`: how many list entries
   * occur in `text`, at most one per entry, and positive exactly when one occurs.
   */
  function Score(words: seq<string>, text: string): (n: nat)
    ensures n <= |words|
    ensures n > 0 <==> Mentions(text, words)
  {
    if words == [] then 0
    else
      var rest := Score(words[1..], text);
      assert Mentions(text, words) <==> Includes(text, words[0]) || Mentions(text, words[1..]) by {
        if Mentions(text, words) && !Includes(text, words[0]) {
          var i :| 0 <= i < |words| && Includes(text, words[i]);
          assert words[1..][i - 1] == words[i];
        }
        if Mentions(text, words[1..]) {
          var i :| 0 <= i < |words[1..]| && Includes(text, words[1..][i]);
          assert words[i + 1] == words[1..][i];
        }
      }
      (if Includes(text, words[0]) then 1 else 0) + rest
  }

  /**
   * `detectSentiment` (scoring variant): on the lower-cased text, any frustration
   * word wins; otherwise more negative than positive words gives negative; otherwise
   * any positive word gives positive (a tie with both above zero included); otherwise neutral.
   */
  function DetectSentiment(text: string): (r: Sentiment)
    ensures r == Frustrated <==> Mentions(Lower(text), FrustrationWords)
    ensures r == Negative <==>
      !Mentions(Lower(text), FrustrationWords) && Score(NegativeWords, Lower(text)) > Score(PositiveWords, Lower(text))
    ensures r == Positive <==>
      && !Mentions(Lower(text), FrustrationWords)
      && Score(NegativeWords, Lower(text)) <= Score(PositiveWords, Lower(text))
      && Mentions(Lower(text), PositiveWords)
    ensures r == Neutral <==>
      !Mentions(Lower(text), FrustrationWords) && !Mentions(Lower(text), NegativeWords) && !Mentions(Lower(text), PositiveWords)
  {
    var lowerText := Lower(text);
    var frustrationScore := Score(FrustrationWords, lowerText);
    var negativeScore := Score(NegativeWords, lowerText);
    var positiveScore := Score(PositiveWords, lowerText);
    if frustrationScore > 0 then Frustrated
    else if negativeScore > positiveScore then Negative
    else if positiveScore > 0 then Positive
    else Neutral
  }

  /** Each score counts distinct list words present, not occurrences. */
  lemma {:induction false} ScoreCountsDistinctWords(words: seq<string>, text: string)
    requires Distinct(words)
    ensures Score(words, text) == |Present(words, text)|
  {
    if words != [] {
      ScoreCountsDistinctWords(words[1..], text);
      assert words[0] !in words[1..];
      var head := if Includes(text, words[0]) then {words[0]} else {};
      assert Present(words, text) == head + Present(words[1..], text);
      assert head !! Present(words[1..], text);
    }
  }

  /** The three lists hold no duplicates, so the scores are at most 11, 9 and 10. */
  lemma ScoreBounds(text: string)
    ensures Distinct(FrustrationWords) && Distinct(NegativeWords) && Distinct(PositiveWords)
    ensures Score(FrustrationWords, text) <= 11
    ensures Score(NegativeWords, text) <= 9
    ensures Score(PositiveWords, text) <= 10
  {
    FrustrationWordsDistinct();
    NegativeWordsDistinct();
    PositiveWordsDistinct();
  }

  lemma FrustrationWordsDistinct()
    ensures Distinct(FrustrationWords)
  {
  }

  lemma NegativeWordsDistinct()
    ensures Distinct(NegativeWords)
  {
  }

  lemma PositiveWordsDistinct()
    ensures Distinct(PositiveWords)
  {
  }

  /** Matching ignores case: the text and its lower-case form get the same label. */
  lemma CaseInsensitive(text: string)
    ensures DetectSentiment(Lower(text)) == DetectSentiment(text)
  {
    LowerIdempotent(text);
  }

  /** Adding text on either side of a frustrated text leaves it frustrated. */
  lemma FrustrationDominates(text: string, before: string, after: string)
    requires DetectSentiment(text) == Frustrated
    ensures DetectSentiment(before + text + after) == Frustrated
  {
    var i :| 0 <= i < |FrustrationWords| && Includes(Lower(text), FrustrationWords[i]);
    LowerAppend(before + text, after);
    LowerAppend(before, text);
    IncludesInContext(Lower(text), FrustrationWords[i], Lower(before), Lower(after));
  }

  /**
   * Any listed frustration word, exactly as listed (lower case), wherever it stands in the
   * text, makes the text frustrated; upper-case spellings follow with `CaseInsensitive`.
   */
  lemma FrustrationWordAnywhere(i: nat, before: string, after: string)
    requires i < |FrustrationWords|
    ensures DetectSentiment(before + FrustrationWords[i] + after) == Frustrated
  {
    var w := FrustrationWords[i];
    FrustrationWordIsLowercase(i);
    LowercaseWordInContext(w, before, after);
  }

  lemma FrustrationWordIsLowercase(i: nat)
    requires i < |FrustrationWords|
    ensures Lower(FrustrationWords[i]) == FrustrationWords[i]
  {
    var w := FrustrationWords[i];
    assert forall j :: 0 <= j < |w| ==> !IsUpper(w[j]);
    LowerOfLowercase(w);
  }

  /** A lower-case word is found in the lower-cased text around it. */
  lemma LowercaseWordInContext(w: string, before: string, after: string)
    requires Lower(w) == w
    ensures Includes(Lower(before + w + after), w)
  {
    assert OccursAt(w, w, 0);
    IncludesInContext(w, w, Lower(before), Lower(after));
    LowerAppend(before + w, after);
    LowerAppend(before, w);
  }

  /** "it is broken" is classified as frustrated. */
  lemma BrokenIsFrustrated()
    ensures DetectSentiment("it is broken") == Frustrated
  {
    FrustrationWordAnywhere(5, "it is ", "");
    assert "it is " + FrustrationWords[5] + "" == "it is broken";
  }

  // ---------------------------------------------------------------------------
  // transcribeAudio: mapping the provider's transcript to the adapter's result

  /** The provider's transcript status; `transcribe` waits until it is completed or error. */
  datatype TranscriptStatus = Queued | Processing | Completed | Error

  /** One word of the provider's transcript; it carries more than the adapter keeps. */
  datatype ProviderWord = ProviderWord(text: string, start: int, end: int, confidence: real, speaker: Option<string>)

  /** The fields of the provider's transcript the adapter reads; missing ones are `None`. */
  datatype Transcript = Transcript(
    status: TranscriptStatus,
    error: Option<string>,
    text: Option<string>,
    confidence: Option<real>,
    words: Option<seq<ProviderWord>>)

  /** What the upload-and-transcribe calls produced: a transcript, or a thrown error. */
  datatype ProviderOutcome = ProviderFailed | Delivered(transcript: Transcript)

  datatype Word = Word(text: string, start: int, end: int, confidence: real)

  /** `TranscriptionResult` */
  datatype TranscriptionResult = TranscriptionResult(text: string, confidence: real, words: Option<seq<Word>>)

  const TranscribeFailure := "Failed to transcribe audio"

  function KeepWord(w: ProviderWord): Word
  {
    Word(w.text, w.start, w.end, w.confidence)
  }

  /**
   * `transcribeAudio` after the provider has answered: an error status or any failure
   * becomes the one error "Failed to transcribe audio"; otherwise a missing text reads
   * as "", a missing or zero confidence as 0, and the words, when present, are kept
   * one for one and in order with their text, start, end and confidence.
   */
  function TranscribeAudio(outcome: ProviderOutcome): (r: Result<TranscriptionResult, string>)
    ensures r.Err? <==> outcome.ProviderFailed? || outcome.transcript.status == Error
    ensures r.Err? ==> r.error == TranscribeFailure
    ensures r.Ok? ==>
      var t := outcome.transcript;
      && r.value.text == (if t.text.Some? then t.text.value else "")
      && r.value.confidence == (if t.confidence.Some? then t.confidence.value else 0.0)
      && r.value.words.Some? == t.words.Some?
      && (t.words.Some? ==>
            && |r.value.words.value| == |t.words.value|
            && forall i :: 0 <= i < |t.words.value| ==>
                 var w, w' := t.words.value[i], r.value.words.value[i];
                 w'.text == w.text && w'.start == w.start && w'.end == w.end && w'.confidence == w.confidence)
  {
    match outcome
    case ProviderFailed => Err(TranscribeFailure)
    case Delivered(t) =>
      if t.status == Error then Err(TranscribeFailure)
      else
        var text := if t.text.Some? && t.text.value != "" then t.text.value else "";
        var confidence := if t.confidence.Some? && t.confidence.value != 0.0 then t.confidence.value else 0.0;
        var words := match t.words
          case None => None
          case Some(ws) => Some(seq(|ws|, i requires 0 <= i < |ws| => KeepWord(ws[i])));
        Ok(TranscriptionResult(text, confidence, words))
  }

  /** The provider's own error text never reaches the caller. */
  lemma ErrorTextIsDropped(t: Transcript, message: string)
    requires t.status == Error
    ensures TranscribeAudio(Delivered(t)) == TranscribeAudio(Delivered(t.(error := Some(message))))
    ensures TranscribeAudio(Delivered(t)) == TranscribeAudio(ProviderFailed)
  {
  }
}
