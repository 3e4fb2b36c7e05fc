/** The record shapes of frontend/types/Recording.ts. */
module RecordingTypes {
  import opened Wrappers

  /** What the analysis endpoint returns: the transcript, a 0-100 confidence
      and the coaching tips in order. */
  datatype AudioAnalysisResponse = AudioAnalysisResponse(transcript: string, confidence: int, tips: seq<string>)

  /** One stored recording; `analysis` is absent when analysis failed or was
      never run. `duration` is in milliseconds, `size` in bytes. */
  datatype RecordingItem = RecordingItem(
    id: string,
    name: string,
    uri: string,
    duration: int,
    createdAt: string,
    size: int,
    analysis: Option<AudioAnalysisResponse>)
}
