/** The page controller: the held inputs, the active tab, and the two
    request states driven by the content and channel handlers. Each
    asynchronous handler is split into a start step, which validates and
    enters the loading state, and a complete step, which stores what the
    awaited call settled with; a combined method runs the two around the
    analysis client in sequence. */
module Application {
  import opened Types
  import opened JsStrings
  import GeminiService

  const ValidationMessage := "Please provide at least a title or a thumbnail."
  const FallbackMessage := "Analysis failed."

  datatype Tab = Optimizer | Spy

  /** The arguments a content start hands to the analysis client. */
  datatype ContentCall = ContentCall(title: string, imageBase64: Option<string>)

  class App {
    var activeTab: Tab
    var title: string
    var image: Option<UploadedImage>
    var analysis: RequestState<OptimizationResult>
    var channelName: string
    var channelAnalysis: RequestState<ChannelAnalysisResult>

    /** No request state ever shows a result while it is loading. */
    ghost predicate Valid()
      reads this
    {
      (analysis.isLoading ==> analysis.result.None?)
      && (channelAnalysis.isLoading ==> channelAnalysis.result.None?)
    }

    constructor ()
      ensures Valid()
      ensures activeTab == Optimizer && title == "" && image == None && channelName == ""
      ensures analysis == RequestState(false, None, None)
      ensures channelAnalysis == RequestState(false, None, None)
    {
      activeTab := Optimizer;
      title := "";
      image := None;
      analysis := RequestState(false, None, None);
      channelName := "";
      channelAnalysis := RequestState(false, None, None);
    }

    /** The title text area's change handler. */
    method EditTitle(text: string)
      modifies this`title
      ensures title == text
    {
      title := text;
    }

    /** The thumbnail picker's `onImageChange` callback. */
    method ChangeImage(img: Option<UploadedImage>)
      modifies this`image
      ensures image == img
    {
      image := img;
    }

    /** The channel name input's change handler. */
    method EditChannelName(text: string)
      modifies this`channelName
      ensures channelName == text
    {
      channelName := text;
    }

    /** The tab buttons. */
    method SelectTab(tab: Tab)
      modifies this`activeTab
      ensures activeTab == tab
    {
      activeTab := tab;
    }

    /** "Optimize This Idea" on a content gap: copies its title into the
        title input and switches to the optimizer tab. */
    method OptimizeIdea(idea: ContentGap)
      modifies this`title, this`activeTab
      ensures title == idea.title && activeTab == Optimizer
    {
      title := idea.title;
      activeTab := Optimizer;
    }

    /** The synchronous part of `handleAnalyzeContent`. With neither a title
        nor an image, only the error is set (loading flag and any earlier
        result are kept) and no call is issued. Otherwise the state becomes
        loading with no result and no error, and the call's arguments are
        returned: the title and the image's data URL, if any. */
    method StartAnalyzeContent() returns (call: Option<ContentCall>)
      requires Valid()
      modifies this`analysis
      ensures Valid()
      ensures !Truthy(title) && image.None? ==>
        call == None && analysis == old(analysis).(error := Some(ValidationMessage))
      ensures Truthy(title) || image.Some? ==>
        call == Some(ContentCall(title, if image.Some? then Some(image.value.base64) else None))
        && analysis == RequestState(true, None, None)
    {
      if !Truthy(title) && image.None? {
        analysis := analysis.(error := Some(ValidationMessage));
        return None;
      }
      analysis := RequestState(true, None, None);
      call := Some(ContentCall(title, if image.Some? then Some(image.value.base64) else None));
    }

    /** The completion of `handleAnalyzeContent`: a result is stored with
        no error; a failure stores its message, or "Analysis failed." when
        the message is empty, with no result. Loading ends either way. */
    method CompleteAnalyzeContent(outcome: Outcome<OptimizationResult>)
      modifies this`analysis
      requires Valid()
      ensures Valid()
      ensures outcome.Success? ==> analysis == RequestState(false, Some(outcome.value), None)
      ensures outcome.Failure? ==> analysis == RequestState(false, None,
        Some(if Truthy(outcome.message) then outcome.message else FallbackMessage))
    {
      match outcome
      case Success(r) =>
        analysis := RequestState(false, Some(r), None);
      case Failure(message) =>
        analysis := RequestState(false, None, Some(if Truthy(message) then message else FallbackMessage));
    }

    /** The synchronous part of `handleAnalyzeChannel(name?)`. The target is
        a non-empty override, else the held channel name. With no target
        nothing changes and no call is issued. A non-empty override is also
        written into the held channel name. The state becomes loading with
        no result and no error, and the target is returned. */
    method StartAnalyzeChannel(name: Option<string>) returns (target: Option<string>)
      requires Valid()
      modifies this`channelName, this`channelAnalysis
      ensures Valid()
      ensures name.Some? && Truthy(name.value) ==>
        target == Some(name.value) && channelName == name.value
        && channelAnalysis == RequestState(true, None, None)
      ensures !(name.Some? && Truthy(name.value)) && Truthy(old(channelName)) ==>
        target == Some(old(channelName)) && channelName == old(channelName)
        && channelAnalysis == RequestState(true, None, None)
      ensures !(name.Some? && Truthy(name.value)) && !Truthy(old(channelName)) ==>
        target == None && channelName == old(channelName) && channelAnalysis == old(channelAnalysis)
    {
      var targetName := if name.Some? && Truthy(name.value) then name.value else channelName;
      if !Truthy(targetName) {
        return None;
      }
      if name.Some? && Truthy(name.value) {
        channelName := name.value;
      }
      channelAnalysis := RequestState(true, None, None);
      target := Some(targetName);
    }

    /** The completion of `handleAnalyzeChannel`: as for content, except
        that a failure stores its message as it is, with no fallback text. */
    method CompleteAnalyzeChannel(outcome: Outcome<ChannelAnalysisResult>)
      modifies this`channelAnalysis
      requires Valid()
      ensures Valid()
      ensures outcome.Success? ==> channelAnalysis == RequestState(false, Some(outcome.value), None)
      ensures outcome.Failure? ==> channelAnalysis == RequestState(false, None, Some(outcome.message))
    {
      match outcome
      case Success(r) =>
        channelAnalysis := RequestState(false, Some(r), None);
      case Failure(message) =>
        channelAnalysis := RequestState(false, None, Some(message));
    }

    /** `handleAnalyzeContent` run to completion with no other event in
        between: the start step, the analysis client on the given
        environment and remote reply, and the completion step. `sent` is
        the request issued to the remote model, `None` when none was. */
    method HandleAnalyzeContent(env: GeminiService.Env, reply: GeminiService.Reply<OptimizationResult>)
      returns (sent: Option<GeminiService.Request>)
      requires Valid()
      modifies this`analysis
      ensures Valid()
      ensures !Truthy(title) && image.None? ==>
        sent == None && analysis == old(analysis).(error := Some(ValidationMessage))
      ensures (Truthy(title) || image.Some?) && !GeminiService.HasKey(env) ==>
        sent == None && analysis == RequestState(false, None, Some(GeminiService.ContentKeyMissing))
      ensures (Truthy(title) || image.Some?) && GeminiService.HasKey(env) ==>
        sent.Some? && sent.value.contract == GeminiService.ContentContract
        && sent.value.model == GeminiService.Model && sent.value.responseMimeType == GeminiService.JsonMimeType
      ensures GeminiService.HasKey(env) && image.Some? && Truthy(image.value.base64) ==>
        sent.Some? && sent.value.parts ==
          [GeminiService.InlineImage(GeminiService.ImageMimeType, GeminiService.Payload(image.value.base64)),
           GeminiService.Text(GeminiService.ContentPrompt(title, true))]
      ensures (Truthy(title) || image.Some?) && GeminiService.HasKey(env) && !(image.Some? && Truthy(image.value.base64))
        ==>
        sent.Some? && sent.value.parts == [GeminiService.Text(GeminiService.ContentPrompt(title, false))]
      ensures (Truthy(title) || image.Some?) && GeminiService.HasKey(env) && reply.Raised? ==>
        analysis == RequestState(false, None,
          Some(if Truthy(reply.message) then reply.message else FallbackMessage))
      ensures (Truthy(title) || image.Some?) && GeminiService.HasKey(env) && reply.Responded? && !GeminiService.HasBody(reply) ==>
        analysis == RequestState(false, None, Some(GeminiService.NoDataReturned))
      ensures (Truthy(title) || image.Some?) && GeminiService.HasKey(env) && GeminiService.HasBody(reply) ==>
        analysis == (match reply.parsed
          case Success(r) => RequestState(false, Some(r), None)
          case Failure(m) => RequestState(false, None, Some(if Truthy(m) then m else FallbackMessage)))
    {
      var call := StartAnalyzeContent();
      if call.None? {
        return None;
      }
      var outcome;
      sent, outcome := GeminiService.AnalyzeContent(env, call.value.title, call.value.imageBase64, reply);
      CompleteAnalyzeContent(outcome);
    }

    /** `handleAnalyzeChannel(name?)` run to completion with no other event
        in between. */
    method HandleAnalyzeChannel(name: Option<string>, env: GeminiService.Env,
                                reply: GeminiService.Reply<ChannelAnalysisResult>)
      returns (sent: Option<GeminiService.Request>)
      requires Valid()
      modifies this`channelName, this`channelAnalysis
      ensures Valid()
      ensures !(name.Some? && Truthy(name.value)) && !Truthy(old(channelName)) ==>
        sent == None && channelName == old(channelName) && channelAnalysis == old(channelAnalysis)
      ensures name.Some? && Truthy(name.value) ==> channelName == name.value
      ensures !(name.Some? && Truthy(name.value)) ==> channelName == old(channelName)
      ensures Truthy(channelName) && !GeminiService.HasKey(env) ==>
        sent == None && channelAnalysis == RequestState(false, None, Some(GeminiService.ChannelKeyMissing))
      ensures Truthy(channelName) && GeminiService.HasKey(env) ==>
        sent == Some(GeminiService.Request(GeminiService.Model, [GeminiService.Text(GeminiService.ChannelPrompt(channelName))],
                                           GeminiService.ChannelContract, GeminiService.JsonMimeType))
      ensures Truthy(channelName) && GeminiService.HasKey(env) && reply.Raised? ==>
        channelAnalysis == RequestState(false, None, Some(reply.message))
      ensures Truthy(channelName) && GeminiService.HasKey(env) && reply.Responded? && !GeminiService.HasBody(reply) ==>
        channelAnalysis == RequestState(false, None, Some(GeminiService.NoDataReturned))
      ensures Truthy(channelName) && GeminiService.HasKey(env) && GeminiService.HasBody(reply) ==>
        channelAnalysis == (match reply.parsed
          case Success(r) => RequestState(false, Some(r), None)
          case Failure(m) => RequestState(false, None, Some(m)))
    {
      var target := StartAnalyzeChannel(name);
      if target.None? {
        return None;
      }
      assert target.value == channelName && Truthy(channelName);
      var outcome;
      sent, outcome := GeminiService.AnalyzeChannel(env, channelName, reply);
      CompleteAnalyzeChannel(outcome);
    }
  }
}
