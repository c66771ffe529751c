/** `analyze_media`: routes a file to the detector for its declared type. */
module MediaVerifier {
  import opened Wrappers
  import opened Results
  import ImageDetector
  import VideoDetector
  import AudioDetector
  import DocumentDetector

  /** What each detector's extraction step yields for the uploaded file;
      only the one for the declared type is looked at. */
  datatype MediaFile = MediaFile(
    image: Result<ImageDetector.ImageFeatures>,
    video: Result<VideoDetector.Stream>,
    audio: Result<AudioDetector.AudioFeatures>,
    document: Result<DocumentDetector.Pdf>)

  predicate KnownType(mediaType: string)
  {
    mediaType in {"image", "video", "audio", "document"}
  }

  function AnalyzeMedia(file: MediaFile, mediaType: string): (a: Analysis)
    ensures mediaType == "image" ==> a == ImageDetector.AnalyzeImage(file.image)
    ensures mediaType == "video" ==> a == VideoDetector.AnalyzeVideo(file.video)
    ensures mediaType == "audio" ==> a == AudioDetector.AnalyzeAudio(file.audio)
    ensures mediaType == "document" ==> a == DocumentDetector.AnalyzeDocument(file.document)
    ensures !KnownType(mediaType) ==> a == Neutral(UnknownMediaType)
    // whatever the route, the record is well formed
    ensures Bounded(a)
    ensures a.confidence == 0 <==> !Succeeded(a)
    ensures Succeeded(a) ==> 5 <= a.score
    ensures !Succeeded(a) ==> a.score == 0
    ensures a.technique == Failed ==> exists cause :: a == FailedWith(cause)
  {
    if mediaType == "image" then ImageDetector.AnalyzeImage(file.image)
    else if mediaType == "video" then VideoDetector.AnalyzeVideo(file.video)
    else if mediaType == "audio" then AudioDetector.AnalyzeAudio(file.audio)
    else if mediaType == "document" then DocumentDetector.AnalyzeDocument(file.document)
    else Neutral(UnknownMediaType)
  }

  /** Media types are matched exactly: a capitalised type is unknown. */
  lemma TypesAreCaseSensitive(file: MediaFile)
    ensures AnalyzeMedia(file, "Image") == Neutral(UnknownMediaType)
    ensures AnalyzeMedia(file, "") == Neutral(UnknownMediaType)
  {
  }
}
