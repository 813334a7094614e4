/** The client page (src/app/page.tsx): how recognition results accumulate
    into the transcript, how the interim marker is stripped, when a
    translation is requested, and the state updates of the handlers.
    Browser events and the translate route's replies are inputs. */
module TranslatorPage {
  import opened Js
  import opened Http
  import TranslationRoute

  /** The literal text the pattern ` \[interim\].*$` starts with. */
  const InterimMarker := " [interim]"
  const TranslateFailedMessage := "Translation failed. Please try again."

  // ---------------------------------------------------------------------
  // Recognition results

  /** One entry of `event.results`: its `isFinal` flag and the transcript of
      its first alternative. */
  datatype SpeechResult = SpeechResult(isFinal: bool, transcript: string)

  /** What `onresult` receives: something that is not an object with
      `resultIndex` and `results`, or a result event. */
  datatype RecognitionEvent = NotAnEvent | ResultEvent(resultIndex: int, results: seq<SpeechResult>)

  /** The transcripts of the final results from index `i` on, in order and
      without separators: each of them fits inside the concatenation, and
      with no final result from `i` on it is empty. */
  function FinalsFrom(results: seq<SpeechResult>, i: nat): (r: string)
    ensures forall j :: i <= j < |results| && results[j].isFinal ==> |results[j].transcript| <= |r|
    ensures (forall j :: i <= j < |results| ==> !results[j].isFinal) ==> r == ""
    decreases |results| - i
  {
    if i >= |results| then ""
    else (if results[i].isFinal then results[i].transcript else "") + FinalsFrom(results, i + 1)
  }

  /** The accumulation loop of `onresult`.  A negative `resultIndex` makes
      the first access `results[i]` read `undefined`, so the handler throws:
      `None`. */
  method CollectFinal(resultIndex: int, results: seq<SpeechResult>) returns (final: Option<string>)
    ensures final.None? <==> resultIndex < 0
    ensures final.Some? ==> final.value == FinalsFrom(results, resultIndex)
  {
    if resultIndex < 0 {
      return None;
    }
    var acc := "";
    var i := resultIndex;
    while i < |results|
      invariant resultIndex <= i
      invariant i <= |results| || i == resultIndex
      invariant acc + FinalsFrom(results, i) == FinalsFrom(results, resultIndex)
    {
      ghost var rest := FinalsFrom(results, i + 1);
      assert FinalsFrom(results, i) == (if results[i].isFinal then results[i].transcript else "") + rest;
      if results[i].isFinal {
        assert acc + results[i].transcript + rest == acc + (results[i].transcript + rest);
        acc := acc + results[i].transcript;
      }
      i := i + 1;
    }
    return Some(acc);
  }

  /** A final result added at the end contributes its transcript, appended
      with no separator. */
  lemma {:induction false} FinalsAppend(results: seq<SpeechResult>, i: nat, t: string)
    requires i <= |results|
    ensures FinalsFrom(results + [SpeechResult(true, t)], i) == FinalsFrom(results, i) + t
    decreases |results| - i
  {
    var longer := results + [SpeechResult(true, t)];
    if i < |results| {
      FinalsAppend(results, i + 1, t);
      assert longer[i] == results[i];
    } else {
      assert FinalsFrom(longer, i + 1) == "";
    }
  }

  /** A result that is not final contributes nothing: replacing it by any
      other non-final result leaves the concatenation unchanged. */
  lemma {:induction false} NonFinalContributesNothing(results: seq<SpeechResult>, i: nat, k: nat, other: SpeechResult)
    requires i <= |results| && k < |results| && !results[k].isFinal && !other.isFinal
    ensures FinalsFrom(results[k := other], i) == FinalsFrom(results, i)
    decreases |results| - i
  {
    if i < |results| {
      NonFinalContributesNothing(results, i + 1, k, other);
    }
  }

  /** The concatenation is empty exactly when every final result from `i` on
      has an empty transcript. */
  lemma {:induction false} FinalsEmptyIff(results: seq<SpeechResult>, i: nat)
    ensures FinalsFrom(results, i) == ""
        <==> forall j :: i <= j < |results| && results[j].isFinal ==> results[j].transcript == ""
    decreases |results| - i
  {
    if i < |results| {
      FinalsEmptyIff(results, i + 1);
    }
  }

  /** `(prev ? prev + ' ' : '') + final`: the old transcript stays as a
      prefix, one space follows a non-empty one, and the new text can be read
      back off the end. */
  function Appended(prev: string, final: string): (r: string)
    ensures var sep := if prev != "" then 1 else 0;
      && |r| == |prev| + sep + |final|
      && prev <= r
      && (prev != "" ==> r[|prev|] == ' ')
      && r[|prev| + sep..] == final
  {
    (if prev != "" then prev + " " else "") + final
  }

  /** The transcript after `onresult` has handled `ev`: it only ever grows,
      and an event that is not well formed leaves it as it was. */
  function AfterResult(prev: string, ev: RecognitionEvent): (r: string)
    ensures prev <= r
    ensures (ev.NotAnEvent? || ev.resultIndex < 0) ==> r == prev
  {
    match ev
    case NotAnEvent => prev
    case ResultEvent(resultIndex, results) =>
      if resultIndex < 0 then prev
      else
        var final := FinalsFrom(results, resultIndex);
        if final == "" then prev else Appended(prev, final)
  }

  /** The old transcript is always a prefix of the new one, and it changes
      exactly when the event is well formed and some final result from
      `resultIndex` on has a non-empty transcript. */
  lemma ResultExtendsTranscript(prev: string, ev: RecognitionEvent)
    ensures prev <= AfterResult(prev, ev)
    ensures AfterResult(prev, ev) != prev
        <==> (&& ev.ResultEvent? && ev.resultIndex >= 0
              && exists j :: ev.resultIndex <= j < |ev.results| && ev.results[j].isFinal && ev.results[j].transcript != "")
  {
    if ev.ResultEvent? && ev.resultIndex >= 0 {
      FinalsEmptyIff(ev.results, ev.resultIndex);
    }
  }

  // ---------------------------------------------------------------------
  // Interim stripping: `s.replace(/ \[interim\].*$/, "")`

  /** The pattern matches at `i`: the marker starts there and no line
      terminator follows it (`.` stops at one and `$` needs the end). */
  predicate InterimMatchAt(s: string, i: nat) {
    && i + |InterimMarker| <= |s|
    && s[i..i + |InterimMarker|] == InterimMarker
    && forall j :: i + |InterimMarker| <= j < |s| ==> !IsLineTerminator(s[j])
  }

  /** The leftmost position at or after `i` where the pattern matches. */
  function FirstInterimMatch(s: string, i: nat): (r: Option<nat>)
    requires i <= |s|
    ensures r.Some? ==> i <= r.value && InterimMatchAt(s, r.value)
    ensures forall j :: i <= j && (r.None? || j < r.value) ==> !InterimMatchAt(s, j)
    decreases |s| - i
  {
    if i == |s| then None
    else if InterimMatchAt(s, i) then Some(i)
    else FirstInterimMatch(s, i + 1)
  }

  /** The replacement removes the leftmost match and everything after it:
      the result is a prefix of the input, equal to it exactly when the
      pattern matches nowhere, and otherwise cut where the pattern matches
      first. */
  function StripInterim(s: string): (r: string)
    ensures r <= s
    ensures r == s <==> forall j :: 0 <= j <= |s| ==> !InterimMatchAt(s, j)
    ensures r != s ==> InterimMatchAt(s, |r|) && forall j :: 0 <= j < |r| ==> !InterimMatchAt(s, j)
  {
    match FirstInterimMatch(s, 0)
    case None => s
    case Some(i) => s[..i]
  }

  lemma MarkerHasNoLineTerminator()
    ensures forall k :: 0 <= k < |InterimMarker| ==> !IsLineTerminator(InterimMarker[k])
  {
  }

  /** Stripping twice is stripping once: a match left in the stripped prefix
      would have been an earlier match in the original. */
  lemma StripIdempotent(s: string)
    ensures StripInterim(StripInterim(s)) == StripInterim(s)
  {
    match FirstInterimMatch(s, 0)
    case None =>
    case Some(i) =>
      var t := s[..i];
      MarkerHasNoLineTerminator();
      forall j | 0 <= j <= |t|
        ensures !InterimMatchAt(t, j)
      {
        if InterimMatchAt(t, j) {
          assert s[j..j + |InterimMarker|] == t[j..j + |InterimMarker|];
          forall k | j + |InterimMarker| <= k < |s|
            ensures !IsLineTerminator(s[k])
          {
            if k < i {
              assert s[k] == t[k];
            } else if k < i + |InterimMarker| {
              assert s[k] == s[i..i + |InterimMarker|][k - i];
            }
          }
          assert InterimMatchAt(s, j);
          assert false;
        }
      }
      assert FirstInterimMatch(t, 0).None?;
  }

  // ---------------------------------------------------------------------
  // Translation requests and their outcome

  /** The effect on `transcript` change asks for a translation exactly when
      the stripped transcript is not blank after `trim`. */
  predicate ShouldTranslate(transcript: string)
    ensures ShouldTranslate(transcript) ==> StripInterim(transcript) != "" && transcript != ""
  {
    Trim(StripInterim(transcript)) != ""
  }

  /** A translation is requested exactly when the stripped transcript holds a
      character that is neither white space nor a line terminator. */
  lemma ShouldTranslateIff(transcript: string)
    ensures var t := StripInterim(transcript);
      ShouldTranslate(transcript) <==> exists j :: 0 <= j < |t| && !IsTrimmable(t[j])
  {
    TrimBlank(StripInterim(transcript));
  }

  /** What `fetch("/api/translate")` delivers: a network failure, or the
      route's outcome. */
  datatype TranslateResponse = FetchFailed | Delivered(outcome: Outcome)

  /** The page's `error` and `translated` after `handleTranslate`. */
  datatype Feedback = Feedback(error: string, translated: string)

  /** How `handleTranslate` settles on a response.  A rejected route answers
      with a page that is not JSON, so `res.json()` throws as a failed fetch
      does; a body with a non-empty `error` shows it; any other body shows
      its `translated` field or "". */
  function Settle(response: TranslateResponse): (r: Feedback)
    ensures r.error == "" || r.translated == ""
    ensures (response.FetchFailed? || response.outcome.Rejected?) ==> r == Feedback("Translation failed. Please try again.", "")
    ensures response.Delivered? && response.outcome.Respond? ==>
      match response.outcome.body
      case ErrorBody(e) => r == Feedback(e, "")
      case TranslatedBody(t) => r == Feedback("", t)
      case TranscriptBody(_) => r == Feedback("", "")
  {
    match response
    case FetchFailed => Feedback(TranslateFailedMessage, "")
    case Delivered(Rejected) => Feedback(TranslateFailedMessage, "")
    case Delivered(Respond(_, body)) =>
      match body
      // `data.translated || ""`: absent in an error or transcript body
      case ErrorBody(e) => if e != "" then Feedback(e, "") else Feedback("", "")
      case TranslatedBody(t) => Feedback("", t)
      case TranscriptBody(_) => Feedback("", "")
  }

  /** The page and the translate route together: with a key, the route is
      asked to translate the stripped transcript between the chosen
      languages, and the page shows the trimmed first completion with no
      error; without a key the page shows the route's message. */
  lemma TranslateEndToEnd(transcript: string, inputLang: string, outputLang: string, apiKey: Option<string>, choices: Option<seq<TranslationRoute.Choice>>)
    ensures var body := TranslationRoute.Fields(Some(StripInterim(transcript)), Some(inputLang), Some(outputLang));
      var run := TranslationRoute.Post(body, apiKey, TranslationRoute.ReplyData(choices));
      && (Truthy(apiKey) ==>
            && run.sent.Some?
            && run.sent.value.messages[1].content == TranslationRoute.Prompt(StripInterim(transcript), inputLang, outputLang)
            && Settle(Delivered(run.outcome)) == Feedback("", TranslationRoute.Extract(choices)))
      && (!Truthy(apiKey) ==> Settle(Delivered(run.outcome)) == Feedback("Missing OpenAI API key", ""))
  {
  }

  // ---------------------------------------------------------------------
  // The page's state

  /** The configuration given to a new speech recogniser. */
  datatype Recognizer = Recognizer(lang: string, interimResults: bool, continuous: bool)

  /** A request body posted to the translate route. */
  datatype TranslateCall = TranslateCall(text: string, from: string, to: string)

  /** An utterance handed to speech synthesis. */
  datatype Utterance = Utterance(text: string, lang: string)

  /** The page's React state, the current recogniser (`recognitionRef`), and
      the requests and utterances it has handed to the outside world. */
  class Page {
    var listening: bool
    var transcript: string
    var translated: string
    var inputLang: string
    var outputLang: string
    var error: string
    var recognizer: Option<Recognizer>
    var calls: seq<TranslateCall>
    var spoken: seq<Utterance>

    /** An error and a translation are not shown together after a call has
        settled with no other call pending. */
    ghost predicate Valid()
      reads this
    {
      error == "" || translated == ""
    }

    constructor ()
      ensures Valid()
      ensures !listening && transcript == "" && translated == "" && error == ""
      ensures inputLang == "en-US" && outputLang == "es-ES"
      ensures recognizer == None && calls == [] && spoken == []
    {
      listening, transcript, translated := false, "", "";
      inputLang, outputLang, error := "en-US", "es-ES", "";
      recognizer, calls, spoken := None, [], [];
    }

    /** What the transcript box shows. */
    function Displayed(): (r: string)
      reads this
      ensures r <= transcript
    {
      StripInterim(transcript)
    }

    /** `startListening`: without speech recognition nothing changes;
        otherwise a continuous recogniser with interim results is created
        for the input language and the page is listening. */
    method StartListening(supported: bool)
      modifies this`listening, this`recognizer
      ensures !supported ==> listening == old(listening) && recognizer == old(recognizer)
      ensures supported ==> listening && recognizer == Some(Recognizer(inputLang, true, true))
    {
      if !supported {
        return;
      }
      recognizer := Some(Recognizer(inputLang, true, true));
      listening := true;
    }

    /** `stopListening` (the current recogniser, if any, is told to stop). */
    method StopListening()
      modifies this`listening
      ensures !listening
    {
      listening := false;
    }

    /** The recogniser's `onend`. */
    method OnEnd()
      modifies this`listening
      ensures !listening
    {
      listening := false;
    }

    /** The recogniser's `onresult`. */
    method OnResult(ev: RecognitionEvent)
      modifies this`transcript
      ensures transcript == AfterResult(old(transcript), ev)
      ensures old(transcript) <= transcript
    {
      ResultExtendsTranscript(transcript, ev);
      if ev.NotAnEvent? {
        return;
      }
      var final := CollectFinal(ev.resultIndex, ev.results);
      if final.Some? && final.value != "" {
        transcript := Appended(transcript, final.value);
      }
    }

    /** Typing into the transcript box. */
    method EditTranscript(value: string)
      modifies this`transcript
      ensures transcript == value
    {
      transcript := value;
    }

    method SelectInputLang(lang: string)
      modifies this`inputLang
      ensures inputLang == lang
    {
      inputLang := lang;
    }

    method SelectOutputLang(lang: string)
      modifies this`outputLang
      ensures outputLang == lang
    {
      outputLang := lang;
    }

    /** `handleTranslate`: clear both messages, post the stripped transcript
        with both languages, then settle on the response. */
    method HandleTranslate(response: TranslateResponse)
      modifies this`error, this`translated, this`calls
      ensures calls == old(calls) + [TranslateCall(StripInterim(transcript), inputLang, outputLang)]
      ensures Feedback(error, translated) == Settle(response)
      ensures Valid()
    {
      error := "";
      translated := "";
      calls := calls + [TranslateCall(StripInterim(transcript), inputLang, outputLang)];
      if response.FetchFailed? || response.outcome.Rejected? {
        error := TranslateFailedMessage;
        translated := "";
        return;
      }
      var body := response.outcome.body;
      if body.ErrorBody? && body.error != "" {
        error := body.error;
        translated := "";
      } else {
        // `data.translated || ""`
        translated := if body.TranslatedBody? then body.translated else "";
      }
    }

    /** The effect that runs when the transcript or a language changes:
        translate a non-blank stripped transcript, otherwise clear the
        translation. */
    method TranscriptChanged(response: TranslateResponse)
      requires Valid()
      modifies this`error, this`translated, this`calls
      ensures Valid()
      ensures ShouldTranslate(transcript) ==>
        && calls == old(calls) + [TranslateCall(StripInterim(transcript), inputLang, outputLang)]
        && Feedback(error, translated) == Settle(response)
      ensures !ShouldTranslate(transcript) ==>
        translated == "" && error == old(error) && calls == old(calls)
    {
      if Trim(StripInterim(transcript)) != "" {
        HandleTranslate(response);
      } else {
        translated := "";
      }
    }

    /** `handleSpeak`: speak a non-empty translation in the output language. */
    method HandleSpeak()
      modifies this`spoken
      ensures spoken == old(spoken) + (if translated == "" then [] else [Utterance(translated, outputLang)])
    {
      if translated == "" {
        return;
      }
      spoken := spoken + [Utterance(translated, outputLang)];
    }
  }
}
