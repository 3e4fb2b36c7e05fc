/** The `POST /analyze` handler of backend/index.js: it takes the uploaded
    audio file, uploads it to the transcription provider, creates a job,
    polls it until it completes or fails, scores the result, answers with
    JSON and finally deletes the temporary file. The provider's answers are
    parameters: a step's error message when it failed, and what successive
    polls return — a job report, or the error message of a poll request
    that threw. */
module AnalyzeEndpoint {
  import opened Wrappers
  import opened RecordingTypes
  import opened SpeechScore

  const NoAudioMessage: string := "No audio file uploaded"
  const TranscriptionFailedMessage: string := "Transcription failed"

  predicate IsTerminal(status: string) { status == "completed" || status == "error" }

  /** What one poll returns: the job report, or the message of the error the
      request threw. */
  type PollResult = Result<Transcript, string>

  /** A poll ends the loop when its request threw or its report has a
      terminal status. */
  predicate EndsPolling(poll: PollResult) {
    poll.Failure? || IsTerminal(poll.value.status)
  }

  /** The position of the first poll that ends the loop, or |polls| when
      none does. */
  function FirstTerminal(polls: seq<PollResult>): (k: nat)
    ensures k <= |polls|
    ensures forall j :: 0 <= j < k ==> !EndsPolling(polls[j])
    ensures k < |polls| ==> EndsPolling(polls[k])
  {
    if polls == [] || EndsPolling(polls[0]) then 0 else 1 + FirstTerminal(polls[1..])
  }

  /** How polling ends: with the completed job, with the job's failure, with
      a poll request that threw, or not within the given polls (the handler
      then goes on polling). */
  datatype PollOutcome = Completed(result: Transcript) | JobFailed | PollThrew(message: string) | StillPolling

  /** The `while (true)` poll loop over what successive polls return: a
      request that throws leaves the loop with its error, the first
      'completed' report is the result, the first 'error' report fails the
      request, any other status is followed by a 5-second wait and a new
      poll. `waits` counts those waits. */
  method PollTranscript(polls: seq<PollResult>) returns (outcome: PollOutcome, waits: nat)
    ensures var k := FirstTerminal(polls);
            && (k == |polls| ==> outcome == StillPolling && waits == |polls|)
            && (k < |polls| && polls[k].Failure? ==> outcome == PollThrew(polls[k].error) && waits == k)
            && (k < |polls| && polls[k].Success? && polls[k].value.status == "completed" ==>
                  outcome == Completed(polls[k].value) && waits == k)
            && (k < |polls| && polls[k].Success? && polls[k].value.status == "error" ==>
                  outcome == JobFailed && waits == k)
  {
    var i := 0;
    waits := 0;
    while i < |polls|
      invariant i <= |polls| && waits == i
      invariant forall j :: 0 <= j < i ==> !EndsPolling(polls[j])
    {
      if polls[i].Failure? {
        return PollThrew(polls[i].error), waits;
      }
      var report := polls[i].value;
      if report.status == "completed" {
        return Completed(report), waits;
      } else if report.status == "error" {
        return JobFailed, waits;
      }
      waits := waits + 1;
      i := i + 1;
    }
    outcome := StillPolling;
  }

  /** The temporary file multer stored the upload in. */
  datatype UploadedFile = UploadedFile(path: string)

  /** What the handler's collaborators report: an error message for reading
      the file, for the upload and for creating the job when that step
      throws, and what successive polls return. */
  datatype Provider = Provider(
    readError: Option<string>,
    uploadError: Option<string>,
    submitError: Option<string>,
    polls: seq<PollResult>)

  /** The handler's answer: 200 with the analysis, 500 with the error
      message, or none while the job has not reached a terminal status. */
  datatype HttpResponse = Ok(body: AudioAnalysisResponse) | ServerError(error: string) | NoResponse

  /** The completed report the handler scores, if polling ends with one,
      must be scorable. */
  predicate ScoredReportScorable(polls: seq<PollResult>) {
    var k := FirstTerminal(polls);
    k < |polls| && polls[k].Success? && polls[k].value.status == "completed" ==> Scorable(polls[k].value)
  }

  /** The whole request. Every thrown error becomes a 500 answer carrying
      its message; the first poll that ends the loop decides between
      scoring, "Transcription failed" and the poll's own error; the
      temporary file, when there is one, is deleted exactly once on every
      path that answers (`unlinked` lists the deleted paths). */
  method Analyze(file: Option<UploadedFile>, provider: Provider) returns (response: HttpResponse, unlinked: seq<string>)
    requires ScoredReportScorable(provider.polls)
    ensures file.None? ==> response == ServerError(NoAudioMessage)
    ensures file.Some? && provider.readError.Some? ==> response == ServerError(provider.readError.value)
    ensures file.Some? && provider.readError.None? && provider.uploadError.Some? ==>
              response == ServerError(provider.uploadError.value)
    ensures file.Some? && provider.readError.None? && provider.uploadError.None? && provider.submitError.Some? ==>
              response == ServerError(provider.submitError.value)
    ensures file.Some? && provider.readError.None? && provider.uploadError.None? && provider.submitError.None? ==>
              var k := FirstTerminal(provider.polls);
              && (k == |provider.polls| ==> response == NoResponse)
              && (k < |provider.polls| && provider.polls[k].Failure? ==>
                    response == ServerError(provider.polls[k].error))
              && (k < |provider.polls| && provider.polls[k].Success? && provider.polls[k].value.status == "completed" ==>
                    response == Ok(Score(provider.polls[k].value)))
              && (k < |provider.polls| && provider.polls[k].Success? && provider.polls[k].value.status == "error" ==>
                    response == ServerError(TranscriptionFailedMessage))
    ensures response.Ok? ==> 33 <= response.body.confidence <= 100
    ensures response.NoResponse? ==> unlinked == []
    ensures !response.NoResponse? ==> unlinked == if file.Some? then [file.value.path] else []
  {
    unlinked := [];
    if file.None? {
      response := ServerError(NoAudioMessage);
    } else if provider.readError.Some? {
      response := ServerError(provider.readError.value);
    } else if provider.uploadError.Some? {
      response := ServerError(provider.uploadError.value);
    } else if provider.submitError.Some? {
      response := ServerError(provider.submitError.value);
    } else {
      var outcome, waits := PollTranscript(provider.polls);
      match outcome
      case StillPolling =>
        // The loop has not ended: no answer is sent and `finally` is not reached.
        return NoResponse, unlinked;
      case PollThrew(message) =>
        response := ServerError(message);
      case JobFailed =>
        response := ServerError(TranscriptionFailedMessage);
      case Completed(result) =>
        var fillers := FillerCount(result.entities);
        var sentimentScore := SentimentScore(result.sentimentResults);
        var speakingRate := SpeakingRate(result.words, result.audioDuration);
        var confidence := Confidence(sentimentScore, fillers, speakingRate);
        var tips := CollectTips(sentimentScore, fillers, speakingRate);
        response := Ok(AudioAnalysisResponse(result.text, confidence, tips));
    }
    // finally
    if file.Some? {
      unlinked := unlinked + [file.value.path];
    }
  }
}
