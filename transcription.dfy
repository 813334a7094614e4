/** The transcription route (`POST` in src/app/api/assemblyai/route.ts): a
    chain of guards, an upload, a job submission and a bounded poll loop
    against the transcription provider.  Every provider reply is an input;
    the handler's decisions over those inputs are the model. */
module TranscriptionRoute {
  import opened Js
  import opened Http

  /** The poll loop issues at most this many status requests. */
  const MaxPolls: nat := 30

  const MissingKeyMessage := "Missing AssemblyAI API key"
  const NoAudioMessage := "No audio file provided"
  const UploadFailedMessage := "Failed to upload audio to AssemblyAI"
  const SubmitFailedMessage := "Failed to start transcription"
  const JobFailedMessage := "Transcription failed"
  const TimedOutMessage := "Transcription timed out"
  const RouteFailedMessage := "AssemblyAI transcription failed"

  /** A value of the multipart field `audio`: a plain text field or a file. */
  datatype FormValue = TextField(text: string) | FileField(bytes: seq<bv8>)

  /** What `req.formData()` yields: a body that is not multipart form data
      makes it throw; otherwise the field `audio` may be absent. */
  datatype FormInput = Unparsable | Form(audio: Option<FormValue>)

  /** The upload endpoint's reply; `UploadThrew` stands for a failed fetch,
      a body that is not JSON, or a JSON `null`. */
  datatype UploadReply = UploadThrew | UploadData(uploadUrl: Option<string>)

  /** The submission endpoint's reply, with the job id and its initial status. */
  datatype SubmitReply = SubmitThrew | SubmitData(id: Option<string>, status: Option<string>)

  /** One reply of the status endpoint. */
  datatype PollReply =
    | PollThrew
    | PollData(status: Option<string>, text: Option<string>, error: Option<string>)

  /** Everything the provider answers during one request: the i-th poll of
      the loop receives `polls[i]`. */
  datatype Provider = Provider(upload: UploadReply, submit: SubmitReply, polls: seq<PollReply>)

  /** The JSON body of the submission request. */
  datatype SubmitBody = SubmitBody(audioUrl: string, languageCode: string, punctuate: bool, formatText: bool)

  /** The requests the handler issues, each with its `authorization` key. */
  datatype Request =
    | UploadRequest(key: string, audio: FormValue)
    | SubmitRequest(key: string, body: SubmitBody)
    | PollRequest(key: string, jobId: string)

  /** The response together with every request issued, in order. */
  datatype Run = Run(outcome: Outcome, sent: seq<Request>)

  /** `!audio` is false: the field is present and is not the empty string. */
  predicate AudioPresent(audio: Option<FormValue>) {
    audio.Some? && (audio.value.TextField? ==> audio.value.text != "")
  }

  predicate IsCompleted(p: PollReply) {
    p.PollData? && p.status == Some("completed")
  }

  predicate IsFailed(p: PollReply) {
    p.PollData? && p.status == Some("error")
  }

  /** A reply after which no further poll is issued. */
  predicate EndsPolling(p: PollReply) {
    p.PollThrew? || IsCompleted(p) || IsFailed(p)
  }

  /** The index of the first reply, from `i` on, that ends the polling, or
      `MaxPolls` when none of the first `MaxPolls` replies does. */
  function FirstStop(polls: seq<PollReply>, i: nat): (r: nat)
    requires i <= MaxPolls <= |polls|
    ensures i <= r <= MaxPolls
    ensures r < MaxPolls ==> EndsPolling(polls[r])
    ensures forall j :: i <= j < r ==> !EndsPolling(polls[j])
    decreases MaxPolls - i
  {
    if i == MaxPolls then MaxPolls
    else if EndsPolling(polls[i]) then i
    else FirstStop(polls, i + 1)
  }

  /** How many status requests the loop issues: at least one and at most
      `MaxPolls`; every reply before the last one issued lets the loop go
      on, and when fewer than `MaxPolls` are issued the last one ends it. */
  function PollCount(polls: seq<PollReply>): (r: nat)
    requires MaxPolls <= |polls|
    ensures 1 <= r <= MaxPolls
    ensures forall j :: 0 <= j < r - 1 ==> !EndsPolling(polls[j])
    ensures r < MaxPolls ==> EndsPolling(polls[r - 1])
  {
    var n := FirstStop(polls, 0);
    if n < MaxPolls then n + 1 else MaxPolls
  }

  /** The response once the loop is over: 200, 500 or 504, and 200 exactly
      when the first reply that ends the loop is `completed` with a
      non-empty text, which is then the transcript. */
  function PollOutcome(polls: seq<PollReply>): (r: Outcome)
    requires MaxPolls <= |polls|
    ensures r.Respond? && r.status in {200, 500, 504}
    ensures var n := FirstStop(polls, 0);
      r.status == 200 <==> (n < MaxPolls && IsCompleted(polls[n]) && Truthy(polls[n].text))
    ensures r.status == 200 ==> r.body == TranscriptBody(polls[FirstStop(polls, 0)].text.value)
  {
    var n := FirstStop(polls, 0);
    if n == MaxPolls then Fail(504, TimedOutMessage)
    else match polls[n]
      case PollThrew => Fail(500, RouteFailedMessage)
      case PollData(status, text, error) =>
        if status == Some("error") then Fail(500, OrElse(error, JobFailedMessage))
        else if Truthy(text) then Ok(TranscriptBody(text.value))
        else Fail(504, TimedOutMessage)
  }

  /** `count` status requests for job `id`. */
  function Polls(key: string, id: string, count: nat): seq<Request> {
    seq(count, _ => PollRequest(key, id))
  }

  /** The handler's behaviour as one expression over its inputs: the
      reference the imperative `Post` is proved against.  Only an unreadable
      form rejects the handler; every request carries the key, and there
      are at most `MaxPolls` + 2 of them; every response is 200, 400, 500
      or 504. */
  function Transcribe(apiKey: Option<string>, form: FormInput, p: Provider): (r: Run)
    requires MaxPolls <= |p.polls|
    ensures r.outcome.Rejected? <==> (Truthy(apiKey) && form.Unparsable?)
    ensures r.outcome.Respond? ==> r.outcome.status in {200, 400, 500, 504}
    ensures |r.sent| <= MaxPolls + 2
    ensures r.sent != [] ==> Truthy(apiKey) && forall j :: 0 <= j < |r.sent| ==> r.sent[j].key == apiKey.value
  {
    if !Truthy(apiKey) then Run(Fail(500, MissingKeyMessage), [])
    else
      var key := apiKey.value;
      match form
      case Unparsable => Run(Rejected, [])
      case Form(audio) =>
        if !AudioPresent(audio) then Run(Fail(400, NoAudioMessage), [])
        else
          var upload := UploadRequest(key, audio.value);
          match p.upload
          case UploadThrew => Run(Fail(500, RouteFailedMessage), [upload])
          case UploadData(url) =>
            if !Truthy(url) then Run(Fail(500, UploadFailedMessage), [upload])
            else
              var submit := SubmitRequest(key, SubmitBody(url.value, "auto", true, true));
              match p.submit
              case SubmitThrew => Run(Fail(500, RouteFailedMessage), [upload, submit])
              case SubmitData(id, _) =>
                if !Truthy(id) then Run(Fail(500, SubmitFailedMessage), [upload, submit])
                else Run(PollOutcome(p.polls), [upload, submit] + Polls(key, id.value, PollCount(p.polls)))
  }

  /** The route handler, step by step: guards, upload, submission, then the
      poll loop.  `sent` records each request as it is issued. */
  method Post(apiKey: Option<string>, form: FormInput, p: Provider) returns (outcome: Outcome, sent: seq<Request>)
    requires MaxPolls <= |p.polls|
    ensures Run(outcome, sent) == Transcribe(apiKey, form, p)
  {
    if !Truthy(apiKey) {
      return Fail(500, MissingKeyMessage), [];
    }
    var key := apiKey.value;
    if form.Unparsable? {
      return Rejected, [];
    }
    var audio := form.audio;
    if !AudioPresent(audio) {
      return Fail(400, NoAudioMessage), [];
    }
    sent := [UploadRequest(key, audio.value)];
    if p.upload.UploadThrew? {
      return Fail(500, RouteFailedMessage), sent;
    }
    var uploadUrl := p.upload.uploadUrl;
    if !Truthy(uploadUrl) {
      return Fail(500, UploadFailedMessage), sent;
    }
    sent := sent + [SubmitRequest(key, SubmitBody(uploadUrl.value, "auto", true, true))];
    if p.submit.SubmitThrew? {
      return Fail(500, RouteFailedMessage), sent;
    }
    var id := p.submit.id;
    if !Truthy(id) {
      return Fail(500, SubmitFailedMessage), sent;
    }
    var polled;
    outcome, polled := PollUntilDone(key, id.value, p.submit.status, p.polls);
    sent := sent + polled;
  }

  /** The poll loop: up to `MaxPolls` status requests for job `id` (the
      one-second wait before each is a no-op here), stopping at the first
      `completed` or `error` status, then the final emptiness check on the
      text.  `status` starts as the submission's status and is overwritten
      by every poll before it is compared. */
  method PollUntilDone(key: string, id: string, submitted: Option<string>, polls: seq<PollReply>)
    returns (outcome: Outcome, sent: seq<Request>)
    requires MaxPolls <= |polls|
    ensures outcome == PollOutcome(polls)
    ensures sent == Polls(key, id, PollCount(polls))
  {
    sent := [];
    var status := submitted;
    var transcriptText: Option<string> := Some("");
    var i := 0;
    while i < MaxPolls
      invariant 0 <= i <= MaxPolls
      invariant forall j :: 0 <= j < i ==> !EndsPolling(polls[j])
      invariant sent == Polls(key, id, i)
      invariant transcriptText == Some("")
    {
      sent := sent + [PollRequest(key, id)];
      var reply := polls[i];
      if reply.PollThrew? {
        assert FirstStop(polls, 0) == i;
        return Fail(500, RouteFailedMessage), sent;
      }
      status := reply.status;
      if status == Some("completed") {
        assert FirstStop(polls, 0) == i;
        transcriptText := reply.text;
        break;
      } else if status == Some("error") {
        assert FirstStop(polls, 0) == i;
        return Fail(500, OrElse(reply.error, JobFailedMessage)), sent;
      }
      i := i + 1;
    }
    if !Truthy(transcriptText) {
      return Fail(504, TimedOutMessage), sent;
    }
    return Ok(TranscriptBody(transcriptText.value)), sent;
  }

  /** The guards up to and including the job id all passed, so polling starts. */
  predicate ReachesPolling(apiKey: Option<string>, form: FormInput, p: Provider) {
    && Truthy(apiKey)
    && form.Form? && AudioPresent(form.audio)
    && p.upload.UploadData? && Truthy(p.upload.uploadUrl)
    && p.submit.SubmitData? && Truthy(p.submit.id)
  }

  /** A missing key is answered first: nothing is read from the form and no
      request is issued. */
  lemma MissingKeyAnsweredFirst(apiKey: Option<string>, form: FormInput, p: Provider)
    requires MaxPolls <= |p.polls|
    requires !Truthy(apiKey)
    ensures Transcribe(apiKey, form, p) == Run(Respond(500, ErrorBody("Missing AssemblyAI API key")), [])
  {
  }

  /** A missing or empty `audio` field gives 400 and no upload. */
  lemma NoAudioNoUpload(apiKey: Option<string>, audio: Option<FormValue>, p: Provider)
    requires MaxPolls <= |p.polls|
    requires Truthy(apiKey) && !AudioPresent(audio)
    ensures Transcribe(apiKey, Form(audio), p) == Run(Respond(400, ErrorBody("No audio file provided")), [])
  {
  }

  /** An upload reply without a usable `upload_url` gives 500 and no submission. */
  lemma UploadWithoutUrlNoSubmit(apiKey: Option<string>, audio: Option<FormValue>, p: Provider)
    requires MaxPolls <= |p.polls|
    requires Truthy(apiKey) && AudioPresent(audio)
    requires p.upload.UploadData? && !Truthy(p.upload.uploadUrl)
    ensures Transcribe(apiKey, Form(audio), p)
         == Run(Respond(500, ErrorBody("Failed to upload audio to AssemblyAI")), [UploadRequest(apiKey.value, audio.value)])
  {
  }

  /** The submission names the uploaded audio with fixed options; a reply
      without a job id gives 500 and no poll. */
  lemma SubmissionCarriesUploadUrl(apiKey: Option<string>, audio: Option<FormValue>, p: Provider)
    requires MaxPolls <= |p.polls|
    requires Truthy(apiKey) && AudioPresent(audio)
    requires p.upload.UploadData? && Truthy(p.upload.uploadUrl)
    ensures var r := Transcribe(apiKey, Form(audio), p);
      && 2 <= |r.sent|
      && r.sent[1] == SubmitRequest(apiKey.value, SubmitBody(p.upload.uploadUrl.value, "auto", true, true))
    ensures p.submit.SubmitData? && !Truthy(p.submit.id) ==>
      Transcribe(apiKey, Form(audio), p).outcome == Respond(500, ErrorBody("Failed to start transcription"))
      && |Transcribe(apiKey, Form(audio), p).sent| == 2
  {
  }

  /** Once polling starts, every status request names the submitted job and
      their number is one more than the index of the first reply that ends
      the loop, or `MaxPolls` when none does; so at least one poll always
      happens, whatever status the submission reported. */
  lemma {:induction false} PollsTargetJob(apiKey: Option<string>, form: FormInput, p: Provider)
    requires MaxPolls <= |p.polls|
    requires ReachesPolling(apiKey, form, p)
    ensures var r := Transcribe(apiKey, form, p);
      && |r.sent| == 2 + PollCount(p.polls)
      && (forall j :: 2 <= j < |r.sent| ==> r.sent[j] == PollRequest(apiKey.value, p.submit.id.value))
    ensures 1 <= PollCount(p.polls) <= MaxPolls
    ensures forall k :: 0 <= k < PollCount(p.polls) - 1 ==> !EndsPolling(p.polls[k])
    ensures PollCount(p.polls) < MaxPolls ==> EndsPolling(p.polls[PollCount(p.polls) - 1])
  {
    var r := Transcribe(apiKey, form, p);
    var polls := Polls(apiKey.value, p.submit.id.value, PollCount(p.polls));
    assert r.sent == r.sent[..2] + polls;
    forall j | 2 <= j < |r.sent|
      ensures r.sent[j] == PollRequest(apiKey.value, p.submit.id.value)
    {
      assert r.sent[j] == polls[j - 2];
    }
  }

  /** The status of the submission reply is overwritten before it is read. */
  lemma SubmitStatusIgnored(apiKey: Option<string>, form: FormInput, p: Provider, id: Option<string>, s1: Option<string>, s2: Option<string>)
    requires MaxPolls <= |p.polls|
    ensures Transcribe(apiKey, form, p.(submit := SubmitData(id, s1)))
         == Transcribe(apiKey, form, p.(submit := SubmitData(id, s2)))
  {
  }

  /** The first `error` status gives 500 with the provider's message when it
      has one, else the generic one. */
  lemma JobErrorPassesMessage(apiKey: Option<string>, form: FormInput, p: Provider)
    requires MaxPolls <= |p.polls|
    requires ReachesPolling(apiKey, form, p)
    requires FirstStop(p.polls, 0) < MaxPolls && IsFailed(p.polls[FirstStop(p.polls, 0)])
    ensures var e := p.polls[FirstStop(p.polls, 0)].error;
      Transcribe(apiKey, form, p).outcome
        == Respond(500, ErrorBody(if e.Some? && e.value != "" then e.value else "Transcription failed"))
  {
  }

  /** The route answers 200 exactly when polling starts and the first reply
      that ends it is `completed` with a non-empty text, which is then the
      transcript. */
  lemma SucceedsIff(apiKey: Option<string>, form: FormInput, p: Provider)
    requires MaxPolls <= |p.polls|
    ensures var r := Transcribe(apiKey, form, p);
      var n := FirstStop(p.polls, 0);
      (r.outcome.Respond? && r.outcome.status == 200)
        <==> (ReachesPolling(apiKey, form, p) && n < MaxPolls && IsCompleted(p.polls[n]) && Truthy(p.polls[n].text))
    ensures var r := Transcribe(apiKey, form, p);
      r.outcome.Respond? && r.outcome.status == 200 ==>
        r.outcome.body == TranscriptBody(p.polls[FirstStop(p.polls, 0)].text.value)
  {
  }

  /** 504 is reported exactly when polling starts and either no reply among
      the first `MaxPolls` ends it, or the first one that does is `completed`
      with an empty or missing text. */
  lemma TimesOutIff(apiKey: Option<string>, form: FormInput, p: Provider)
    requires MaxPolls <= |p.polls|
    ensures var r := Transcribe(apiKey, form, p);
      var n := FirstStop(p.polls, 0);
      (r.outcome.Respond? && r.outcome.status == 504)
        <==> (ReachesPolling(apiKey, form, p)
              && (n == MaxPolls || (IsCompleted(p.polls[n]) && !Truthy(p.polls[n].text))))
    ensures var r := Transcribe(apiKey, form, p);
      r.outcome.Respond? && r.outcome.status == 504 ==> r.outcome.body == ErrorBody("Transcription timed out")
  {
  }

  /** A provider call that throws inside the `try` block gives the generic 500. */
  lemma ThrowGivesGenericFailure(apiKey: Option<string>, audio: Option<FormValue>, p: Provider)
    requires MaxPolls <= |p.polls|
    requires Truthy(apiKey) && AudioPresent(audio)
    requires || p.upload.UploadThrew?
             || (p.upload.UploadData? && Truthy(p.upload.uploadUrl) && p.submit.SubmitThrew?)
             || (ReachesPolling(apiKey, Form(audio), p) && FirstStop(p.polls, 0) < MaxPolls
                 && p.polls[FirstStop(p.polls, 0)].PollThrew?)
    ensures Transcribe(apiKey, Form(audio), p).outcome == Respond(500, ErrorBody("AssemblyAI transcription failed"))
  {
  }

  /** Only a 200 carries a transcript; every other response is an error body,
      so no partial transcript is returned alongside an error. */
  lemma NoPartialTranscript(apiKey: Option<string>, form: FormInput, p: Provider)
    requires MaxPolls <= |p.polls|
    ensures var o := Transcribe(apiKey, form, p).outcome;
      o.Respond? ==>
        && (o.status == 200 <==> o.body.TranscriptBody?)
        && (o.status != 200 ==> o.body.ErrorBody? && o.status in {400, 500, 504})
  {
  }

  /** Job `abc123` reports `processing` twice, then `completed` with
      "Hello doctor": the transcript is returned after exactly three polls. */
  lemma ThreePollScenario(key: string, audio: FormValue, url: string, rest: seq<PollReply>)
    requires key != "" && url != "" && (audio.TextField? ==> audio.text != "")
    requires |rest| >= MaxPolls - 3
    ensures var processing := PollData(Some("processing"), None, None);
      var done := PollData(Some("completed"), Some("Hello doctor"), None);
      var p := Provider(UploadData(Some(url)), SubmitData(Some("abc123"), Some("queued")), [processing, processing, done] + rest);
      var r := Transcribe(Some(key), Form(Some(audio)), p);
      && r.outcome == Respond(200, TranscriptBody("Hello doctor"))
      && |r.sent| == 5
      && r.sent[2..] == [PollRequest(key, "abc123"), PollRequest(key, "abc123"), PollRequest(key, "abc123")]
  {
    var processing := PollData(Some("processing"), None, None);
    var done := PollData(Some("completed"), Some("Hello doctor"), None);
    var polls := [processing, processing, done] + rest;
    assert !EndsPolling(polls[0]) && !EndsPolling(polls[1]) && EndsPolling(polls[2]);
    assert FirstStop(polls, 0) == 2;
  }
}
