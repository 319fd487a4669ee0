/** The analysis client: shapes the request for each of the two remote
    operations and turns the remote reply into a result or an error. The
    remote model, its transport and `JSON.parse` are not modelled: what
    they produce is handed in as a `Reply`. */
module GeminiService {
  import opened Types
  import opened JsStrings

  const Model := "gemini-2.5-flash"
  const JsonMimeType := "application/json"
  const ImageMimeType := "image/png"

  const ContentKeyMissing := "API Key is missing. Please check your environment configuration."
  const ChannelKeyMissing := "API Key is missing."
  const NoDataReturned := "No data returned from Gemini."
  const NoTitlePlaceholder := "(No title provided)"

  /** The fixed block of viral title templates embedded in every channel prompt. */
  const FolktaleExamples :=
    "\n"
    + "VIRAL_TITLE_TEMPLATES:\n"
    + "1. \"She Forced Her Sister to Be Her Maid...You Won\U{2019}t Believe How It Ended!\" (Format: [Injustice] ... [Twist/Shock])\n"
    + "2. \"WATCH THIS BEFORE YOU SHARE THAT GOOD NEWS WITH OTHERS!\" (Format: \"WATCH THIS BEFORE\" + [Common Action] + [Warning])\n"
    + "3. \"She Brought 10 Maids to Her Mother-in-Law\U{2019}s House\U{2026} BIG MISTAKE!\" (Format: [Bold Action] ... \"BIG MISTAKE!\")\n"
    + "4. \"She Named Her Baby \U{2018}Aeroplane\U{2019} \U{2014} But the Reason Will Shock You!\" (Format: [Strange Decision] \U{2014} [Curiosity Hook])\n"
    + "5. \"Teacher ATE Her Students\U{2019} Food Every Day\U{2026} Until She Met Her MATCH!\" (Format: [Villain Act] ... \"Until She Met Her MATCH!\")\n"
    + "6. \"IF YOU EVER MEET A MAN LIKE THIS, RUN!\" (Format: \"IF YOU EVER\" + [Scenario] + [Extreme Command])\n"
    + ""

  /** The configuration environment; only the API key is read. */
  datatype Env = Env(apiKey: Option<string>)

  /** One part of a request: an inline image, or text. */
  datatype Part = InlineImage(mimeType: string, data: string) | Text(text: string)

  /** Which paired system instruction and output schema a request is bound
      to: the content-optimisation one, or the channel-analysis one. */
  datatype Contract = ContentContract | ChannelContract

  /** A request as handed to the remote model. */
  datatype Request = Request(model: string, parts: seq<Part>, contract: Contract, responseMimeType: string)

  /** What the awaited remote call gave back: it raised an error, or it
      responded with an optional text body together with what parsing that
      body as JSON gives. */
  datatype Reply<R> = Raised(message: string) | Responded(text: Option<string>, parsed: Outcome<R>)

  /** `process.env.API_KEY` is truthy: an absent key and an empty key are
      both missing. */
  function HasKey(env: Env): (r: bool)
    ensures env.apiKey.None? ==> !r
    ensures env.apiKey == Some("") ==> !r
    ensures env.apiKey.Some? && env.apiKey.value != "" ==> r
  {
    env.apiKey.Some? && Truthy(env.apiKey.value)
  }

  /** The remote call responded with a non-empty body. */
  predicate HasBody<R>(reply: Reply<R>) {
    reply.Responded? && reply.text.Some? && Truthy(reply.text.value)
  }

  /** A non-null, non-empty image argument. */
  predicate ImageGiven(imageBase64: Option<string>) {
    imageBase64.Some? && Truthy(imageBase64.value)
  }

  /** The image payload of a data URL: the field between the first and the
      second comma when there is one and it is not empty, otherwise the
      whole input. */
  function Payload(s: string): (r: string)
    ensures r == s || (r != [] && ',' !in r && ',' in s)
  {
    var fields := Split(s, ',');
    if ',' !in s then
      SplitAfterPlain(s, [], ',');
      assert s + [] == s;
      s
    else if |fields| > 1 && Truthy(fields[1]) then fields[1] else s
  }

  /** A data URL `head,data` (possibly followed by more comma-separated
      fields) yields `data` when it is not empty and the whole input otherwise. */
  lemma {:induction false} PayloadOfDataUrl(head: string, data: string, rest: string)
    requires ',' !in head && ',' !in data
    requires rest == [] || rest[0] == ','
    ensures Payload(head + [','] + data + rest) == if data != [] then data else head + [','] + data + rest
  {
    var s := head + [','] + data + rest;
    var after := [','] + data + rest;
    assert s == head + after;
    SplitAfterPlain(head, after, ',');
    assert after[0] == ',' && after[1..] == data + rest;
    SplitAfterPlain(data, rest, ',');
    var tail := Split(rest, ',');
    if rest != [] {
      assert tail == [[]] + Split(rest[1..], ',');
    }
    assert tail[0] == [];
    assert data + tail[0] == data;
    assert Split(s, ',')[1] == data;
  }

  /** A string without a comma is its own payload. */
  lemma {:induction false} PayloadWithoutComma(s: string)
    requires ',' !in s
    ensures Payload(s) == s
  {
  }

  function DisplayTitle(title: string): string {
    if Truthy(title) then title else NoTitlePlaceholder
  }

  function ThumbnailLine(attached: bool): string {
    if attached then "Thumbnail: (Attached Image)." else "Thumbnail: (No thumbnail provided)."
  }

  const ContentHead := "Analyze this YouTube video concept. \n    Title: \""
  const ContentAdvice := "\n    \n    Provide actionable SEO and CTR advice specifically for an African Folktales or Storytelling channel."

  /** Everything after the title in the content prompt. */
  function ContentTail(attached: bool): string {
    "\". \n    " + ThumbnailLine(attached) + ContentAdvice
  }

  /** The text part of a content request. */
  function ContentPrompt(title: string, attached: bool): (r: string)
    ensures |r| == |ContentHead| + |DisplayTitle(title)| + |ContentTail(attached)|
    ensures StartsWith(r, ContentHead) && EndsWith(r, ContentTail(attached))
    ensures r[|ContentHead|..|ContentHead| + |DisplayTitle(title)|] == DisplayTitle(title)
  {
    ContentHead + DisplayTitle(title) + ContentTail(attached)
  }

  predicate EndsWith(s: string, suffix: string) {
    |suffix| <= |s| && s[|s| - |suffix|..] == suffix
  }

  /** Recovers the displayed title and whether an image was announced from
      a content prompt; `None` for any other text. */
  function ReadContentPrompt(p: string): Option<(string, bool)> {
    var h := |ContentHead|;
    if StartsWith(p, ContentHead) && EndsWith(p, ContentTail(true)) && h + |ContentTail(true)| <= |p| then
      Some((p[h..|p| - |ContentTail(true)|], true))
    else if StartsWith(p, ContentHead) && EndsWith(p, ContentTail(false)) && h + |ContentTail(false)| <= |p| then
      Some((p[h..|p| - |ContentTail(false)|], false))
    else None
  }

  /** The content prompt carries the title as written (the placeholder when
      it is empty) and says "(Attached Image)" exactly when an image was
      given: both can be read back from the text. */
  lemma {:induction false} ContentPromptReadBack(title: string, attached: bool)
    ensures ReadContentPrompt(ContentPrompt(title, attached)) == Some((DisplayTitle(title), attached))
  {
    var p := ContentPrompt(title, attached);
    if !attached {
      NoImageTailIsNotImageTail(p);
    }
  }

  /** A text ending with the no-thumbnail tail cannot also end with the
      attached-image tail: the two differ three characters before the
      common closing advice. */
  lemma NoImageTailIsNotImageTail(p: string)
    requires EndsWith(p, ContentTail(false))
    ensures !EndsWith(p, ContentTail(true))
  {
    var tail, other := ContentTail(false), ContentTail(true);
    var k := |ContentAdvice| + 3;
    assert tail[|tail| - k] == 'd';
    assert other[|other| - k] == 'e';
    assert p[|p| - k] == p[|p| - |tail|..][|tail| - k];
  }

  const ChannelHead := "Analyze the channel \""

  /** Everything after the channel name in the channel prompt. */
  const ChannelLead := "\". \n          \n          Use these proven viral templates as a benchmark for your \"What to Create Next\" suggestions:\n          "
  const ChannelClosing := "\n          \n          Identify their winning formula, most rewatched segments, and suggest 3 high-viral-potential ideas."
  const ChannelTail := ChannelLead + FolktaleExamples + ChannelClosing

  /** The single text part of a channel request. */
  function ChannelPrompt(channelName: string): (r: string)
    ensures StartsWith(r, ChannelHead + channelName)
  {
    ChannelHead + channelName + ChannelTail
  }

  /** Recovers the channel name from a channel prompt; `None` for any other text. */
  function ReadChannelPrompt(p: string): Option<string> {
    if StartsWith(p, ChannelHead) && EndsWith(p, ChannelTail) && |ChannelHead| + |ChannelTail| <= |p| then
      Some(p[|ChannelHead|..|p| - |ChannelTail|])
    else None
  }

  /** The channel prompt carries the channel name as written. */
  lemma {:induction false} ChannelPromptReadBack(channelName: string)
    ensures ReadChannelPrompt(ChannelPrompt(channelName)) == Some(channelName)
  {
    var p := ChannelPrompt(channelName);
    assert p == ChannelHead + (channelName + ChannelTail);
    assert p[..|ChannelHead|] == ChannelHead;
    assert p[|p| - |ChannelTail|..] == ChannelTail;
  }

  /** Re-associates a five-part concatenation, so that the embedded
      examples block is seen as one operand of the channel prompt. */
  lemma Regroup(a: string, b: string, c: string, d: string, e: string)
    ensures a + b + (c + d + e) == (a + b + c) + d + e
  {
  }

  /** The channel prompt embeds the template examples block whatever the name. */
  lemma ChannelPromptEmbedsExamples(channelName: string)
    ensures Includes(ChannelPrompt(channelName), FolktaleExamples)
  {
    Regroup(ChannelHead, channelName, ChannelLead, FolktaleExamples, ChannelClosing);
    OccursBetween(ChannelHead + channelName + ChannelLead, FolktaleExamples, ChannelClosing);
  }

  /** The parts of a content request, built in order: the inline image
      first when one is given, then the text part. */
  method ContentParts(title: string, imageBase64: Option<string>) returns (parts: seq<Part>)
    ensures ImageGiven(imageBase64) ==>
      parts == [InlineImage(ImageMimeType, Payload(imageBase64.value)), Text(ContentPrompt(title, true))]
    ensures !ImageGiven(imageBase64) ==> parts == [Text(ContentPrompt(title, false))]
  {
    parts := [];
    if ImageGiven(imageBase64) {
      var data := Payload(imageBase64.value);
      parts := parts + [InlineImage(ImageMimeType, data)];
    }
    parts := parts + [Text(ContentPrompt(title, ImageGiven(imageBase64)))];
  }

  /** The handling of the remote reply shared by both operations: an error
      raised by the call is rethrown unchanged, an empty or absent body is
      an error, and otherwise the parsed body is the result (or the parse
      error, rethrown unchanged). */
  method Settle<R>(reply: Reply<R>) returns (outcome: Outcome<R>)
    ensures reply.Raised? ==> outcome == Failure(reply.message)
    ensures reply.Responded? && !HasBody(reply) ==> outcome == Failure(NoDataReturned)
    ensures HasBody(reply) ==> outcome == reply.parsed
  {
    match reply
    case Raised(message) =>
      outcome := Failure(message);
    case Responded(text, parsed) =>
      if HasBody(reply) {
        outcome := parsed;
      } else {
        outcome := Failure(NoDataReturned);
      }
  }

  /** `analyzeContent`: fails before building anything when the key is
      missing; otherwise sends one content request and settles its reply.
      `sent` is the request issued, `None` when none was. */
  method AnalyzeContent(env: Env, title: string, imageBase64: Option<string>, reply: Reply<OptimizationResult>)
    returns (sent: Option<Request>, outcome: Outcome<OptimizationResult>)
    ensures !HasKey(env) ==> sent == None && outcome == Failure(ContentKeyMissing)
    ensures HasKey(env) ==> (sent.Some? && sent.value.model == Model
      && sent.value.contract == ContentContract && sent.value.responseMimeType == JsonMimeType)
    ensures HasKey(env) && ImageGiven(imageBase64) ==> (sent.value.parts ==
      [InlineImage(ImageMimeType, Payload(imageBase64.value)), Text(ContentPrompt(title, true))])
    ensures HasKey(env) && !ImageGiven(imageBase64) ==> sent.value.parts == [Text(ContentPrompt(title, false))]
    ensures HasKey(env) && reply.Raised? ==> outcome == Failure(reply.message)
    ensures HasKey(env) && reply.Responded? && !HasBody(reply) ==>
      outcome == Failure(NoDataReturned)
    ensures HasKey(env) && HasBody(reply) ==>
      outcome == reply.parsed
  {
    if !HasKey(env) {
      return None, Failure(ContentKeyMissing);
    }
    var parts := ContentParts(title, imageBase64);
    sent := Some(Request(Model, parts, ContentContract, JsonMimeType));
    outcome := Settle(reply);
  }

  /** `analyzeChannel`: fails before any call when the key is missing;
      otherwise sends a single text part naming the channel, bound to the
      channel contract, and settles its reply. */
  method AnalyzeChannel(env: Env, channelName: string, reply: Reply<ChannelAnalysisResult>)
    returns (sent: Option<Request>, outcome: Outcome<ChannelAnalysisResult>)
    ensures !HasKey(env) ==> sent == None && outcome == Failure(ChannelKeyMissing)
    ensures HasKey(env) ==> sent == Some(Request(Model, [Text(ChannelPrompt(channelName))], ChannelContract, JsonMimeType))
    ensures HasKey(env) && reply.Raised? ==> outcome == Failure(reply.message)
    ensures HasKey(env) && reply.Responded? && !HasBody(reply) ==>
      outcome == Failure(NoDataReturned)
    ensures HasKey(env) && HasBody(reply) ==>
      outcome == reply.parsed
  {
    if !HasKey(env) {
      return None, Failure(ChannelKeyMissing);
    }
    sent := Some(Request(Model, [Text(ChannelPrompt(channelName))], ChannelContract, JsonMimeType));
    outcome := Settle(reply);
  }
}
