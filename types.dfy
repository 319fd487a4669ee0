/** Value records exchanged between the controller, the analysis client and
    the views: the two structured results the remote model returns, the
    per-operation request state, and the uploaded-image record. */
module Types {

  /** A nullable value (`T | null` or an optional argument). */
  datatype Option<T> = None | Some(value: T)

  /** How an awaited operation settled: with a value, or by throwing an
      error whose `message` is carried. */
  datatype Outcome<R> = Success(value: R) | Failure(message: string)

  datatype TitleFeedback = TitleFeedback(
    strengths: seq<string>,
    weaknesses: seq<string>,
    emotionalHooks: seq<string>)

  datatype ThumbnailFeedback = ThumbnailFeedback(
    composition: string,
    textOverlay: string,
    colorUsage: string,
    faceExpressions: string)

  datatype TitleSuggestion = TitleSuggestion(
    title: string,
    viralScore: int,
    strategy: string,
    competitorRef: string)

  datatype Suggestions = Suggestions(
    betterTitles: seq<TitleSuggestion>,
    seoKeywords: seq<string>,
    thumbnailImprovement: string)

  datatype CompetitorAnalysis = CompetitorAnalysis(
    styleMatchScore: int,
    viralPatternUsed: string,
    missingViralElements: seq<string>)

  /** The report for one title/thumbnail pair. Scores are meant to lie in
      0..100, but nothing checks that locally. */
  datatype OptimizationResult = OptimizationResult(
    overallScore: int,
    titleScore: int,
    thumbnailScore: int,
    titleFeedback: TitleFeedback,
    thumbnailFeedback: ThumbnailFeedback,
    suggestions: Suggestions,
    competitorAnalysis: CompetitorAnalysis,
    viralPrediction: string)

  datatype ContentGap = ContentGap(title: string, reason: string, thumbnailIdea: string)

  datatype ChannelAnalysisResult = ChannelAnalysisResult(
    channelName: string,
    niche: string,
    winningFormula: string,
    mostRewatchedPatterns: seq<string>,
    contentGaps: seq<ContentGap>,
    audienceCraving: string)

  /** The `{isLoading, result, error}` record each operation drives. */
  datatype RequestState<R> = RequestState(isLoading: bool, result: Option<R>, error: Option<string>)

  /** What the browser reports about a chosen file: its name and declared media type. */
  datatype FileInfo = FileInfo(name: string, mimeType: string)

  /** An accepted thumbnail: the file, its preview URL and its data URL. */
  datatype UploadedImage = UploadedImage(file: FileInfo, previewUrl: string, base64: string)
}
