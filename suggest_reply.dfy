/** The `suggest-reply` handler: one LLM call that drafts a reply to a piece
    of customer feedback, told which emotions the author seems to feel. */
module SuggestReply {
  import opened Wrappers
  import opened Text
  import opened Http

  /** The request fields. `emotions` holds the keys of the emotions object,
      in enumeration order, or `None` when the field is absent or falsy (an
      empty object is truthy and gives `Some([])`). */
  datatype ReplyInput = ReplyInput(content: string, sentiment: string, emotions: Option<seq<string>>)

  /** The JSON body of a successful response. */
  datatype SuggestedReply = SuggestedReply(suggestedReply: string)

  datatype Handled = Handled(response: Response<SuggestedReply>, calls: seq<string>)

  const MissingKeyMessage: string := "OpenAI API key not configured"
  const UpstreamErrorPrefix: string := "OpenAI API error: "
  const EmotionPrefix: string := "The user seems to feel: "

  /** The sentence naming the emotions, or "" when there are none given. */
  function EmotionContext(emotions: Option<seq<string>>): (r: string)
    ensures emotions.None? ==> r == ""
    ensures emotions.Some? ==> StartsWith(r, EmotionPrefix) && r[|r| - 1] == '.'
    ensures emotions.Some? ==> forall k :: 0 <= k < |emotions.value| ==> Contains(r, emotions.value[k])
  {
    match emotions
    case None => ""
    case Some(keys) =>
      var joined := Join(keys, ", ");
      var r := EmotionPrefix + joined + ".";
      assert r == EmotionPrefix + (joined + ".");
      forall k | 0 <= k < |keys| ensures Contains(r, keys[k]) {
        JoinContainsParts(keys, ", ", k);
        ContainsInPrefix(joined, ".", keys[k]);
        ContainsInSuffix(EmotionPrefix, joined + ".", keys[k]);
      }
      assert r[..|EmotionPrefix|] == EmotionPrefix;
      r
  }

  /** The user message: it names the sentiment and quotes the feedback. */
  function UserPrompt(input: ReplyInput): (r: string)
    ensures Contains(r, input.sentiment) && Contains(r, input.content)
  {
    var tail := EmotionContext(input.emotions) + " Generate a professional response.";
    FeedbackQuotes(input.sentiment, input.content, tail);
    "Customer feedback (" + input.sentiment + "): \"" + input.content + "\". " + tail
  }

  lemma FeedbackQuotes(sentiment: string, content: string, tail: string)
    ensures var p := "Customer feedback (" + sentiment + "): \"" + content + "\". " + tail;
            Contains(p, sentiment) && Contains(p, content)
  {
    var lead, mid, close := "Customer feedback (", "): \"", "\". " + tail;
    var p := lead + sentiment + mid + content + "\". " + tail;
    ContainsPart(lead, sentiment, mid + content + close);
    assert p == lead + sentiment + (mid + content + close);
    ContainsPart(lead + sentiment + mid, content, close);
    assert p == lead + sentiment + mid + content + close;
  }

  /** The handler. `apiKey` is `OPENAI_API_KEY` as read when the function was
      loaded; `upstream` is the outcome of the completion call. */
  function Handle(req: Request<ReplyInput>, apiKey: Option<string>, upstream: Upstream): (h: Handled)
    ensures |h.calls| <= 1
    ensures |h.calls| == 1 ==> && req.verb != "OPTIONS" && req.body.Ok? && !KeyMissing(apiKey)
                               && h.calls[0] == UserPrompt(req.body.value)
  {
    if req.verb == "OPTIONS" then Handled(Preflight(), [])
    else match req.body
      case Err(msg) => Handled(ServerError(msg), [])
      case Ok(input) =>
        if KeyMissing(apiKey) then Handled(ServerError(MissingKeyMessage), [])
        else
          var calls := [UserPrompt(input)];
          match upstream
          case NotOk(status) => Handled(ServerError(UpstreamErrorPrefix + NatToString(status)), calls)
          case Failed(msg) => Handled(ServerError(msg), calls)
          case Reply(text) => Handled(JsonOk(SuggestedReply(text)), calls)
  }

  /** An OPTIONS request gets a bodiless CORS answer and no call. */
  lemma PreflightMakesNoCall(req: Request<ReplyInput>, apiKey: Option<string>, upstream: Upstream)
    requires req.verb == "OPTIONS"
    ensures var h := Handle(req, apiKey, upstream);
            h.response.body.Null? && h.response.headers == CorsHeaders && h.calls == []
  {
  }

  /** A missing key fails before the call, with the fixed message. */
  lemma MissingKeyIs500(req: Request<ReplyInput>, apiKey: Option<string>, upstream: Upstream)
    requires req.verb != "OPTIONS" && req.body.Ok? && KeyMissing(apiKey)
    ensures Handle(req, apiKey, upstream) == Handled(Response(500, JsonHeaders, Error(MissingKeyMessage)), [])
  {
  }

  /** A response that is not ok gives a 500 whose message names the status,
      which can be read back from it. */
  lemma NotOkNamesStatus(req: Request<ReplyInput>, apiKey: Option<string>, status: nat)
    requires req.verb != "OPTIONS" && req.body.Ok? && !KeyMissing(apiKey)
    ensures var r := Handle(req, apiKey, NotOk(status)).response;
            && r.status == 500 && r.body.Error?
            && StartsWith(r.body.error, UpstreamErrorPrefix)
            && ParseDigits(r.body.error[|UpstreamErrorPrefix|..]) == status
  {
    var e := UpstreamErrorPrefix + NatToString(status);
    assert e[|UpstreamErrorPrefix|..] == NatToString(status);
    assert e[..|UpstreamErrorPrefix|] == UpstreamErrorPrefix;
    NatToStringRoundTrip(status);
  }

  /** Success returns the reply text exactly as the model wrote it, and the
      prompt names every emotion key. */
  lemma SuccessKeepsReply(input: ReplyInput, verb: string, apiKey: Option<string>, text: string)
    requires verb != "OPTIONS" && !KeyMissing(apiKey)
    ensures var h := Handle(Request(verb, Ok(input)), apiKey, Reply(text));
            && h.response == Response(200, JsonHeaders, Json(SuggestedReply(text)))
            && |h.calls| == 1
            && (input.emotions.Some? ==>
                  forall k :: 0 <= k < |input.emotions.value| ==> Contains(h.calls[0], input.emotions.value[k]))
  {
    PromptNamesEmotions(input);
  }

  /** The prompt names every emotion key it was given. */
  lemma PromptNamesEmotions(input: ReplyInput)
    ensures input.emotions.Some? ==>
              forall k :: 0 <= k < |input.emotions.value| ==> Contains(UserPrompt(input), input.emotions.value[k])
  {
    var ctx := EmotionContext(input.emotions);
    var before := "Customer feedback (" + input.sentiment + "): \"" + input.content + "\". ";
    var after := " Generate a professional response.";
    assert UserPrompt(input) == before + ctx + after;
    if input.emotions.Some? {
      forall k | 0 <= k < |input.emotions.value| ensures Contains(before + ctx + after, input.emotions.value[k]) {
        NamedInside(before, ctx, after, input.emotions.value[k]);
      }
    }
  }

  /** Text that occurs in the middle part occurs in the whole. */
  lemma NamedInside(before: string, middle: string, after: string, e: string)
    requires Contains(middle, e)
    ensures Contains(before + middle + after, e)
  {
    ContainsInPrefix(middle, after, e);
    ContainsInSuffix(before, middle + after, e);
    assert before + middle + after == before + (middle + after);
  }

  /** Every answer but the preflight is JSON with CORS headers, and either a
      200 with the reply or a 500 with an error message. */
  lemma ResponsesAreJsonOr500(req: Request<ReplyInput>, apiKey: Option<string>, upstream: Upstream)
    requires req.verb != "OPTIONS"
    ensures JsonOr500(Handle(req, apiKey, upstream).response)
  {
  }

  /** An empty emotions object still gives a sentence, with nothing named. */
  lemma EmptyEmotionsObject()
    ensures EmotionContext(Some([])) == "The user seems to feel: ."
  {
  }
}
