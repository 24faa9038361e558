/** The `analyze-sentiment` handler: classify a post with one LLM call and,
    only for a negative post, draft a reply with a second call whose failure
    is not an error. */
module AnalyzeSentiment {
  import opened Wrappers
  import opened Text
  import opened Http

  datatype ClassifyInput = ClassifyInput(content: string, source: string)

  /** The fields the handler reads from the decoded classification. */
  datatype SentimentJson = SentimentJson(sentiment: string, score: real, explanation: Option<string>)

  /** The JSON body of a successful response. */
  datatype Analysis = Analysis(sentiment: string, sentimentScore: real, explanation: string,
                               suggestedResponse: Option<string>)

  /** The response together with the user messages of the LLM calls issued. */
  datatype Handled = Handled(response: Response<Analysis>, calls: seq<string>)

  const MissingKeyMessage: string := "LOVABLE_API_KEY is not configured"
  const ClassifyFailedMessage: string := "Failed to analyze sentiment"
  const NegativeLabel: string := "negative"

  const Fence: string := "```"

  /** The user message of the classification call: it names the source and
      quotes the post. */
  function ClassifyPrompt(input: ClassifyInput): (r: string)
    ensures Contains(r, input.source) && Contains(r, input.content)
  {
    var r := "Analyze the sentiment of this " + input.source + " post: \"" + input.content + "\"";
    PromptQuotes("Analyze the sentiment of this ", input, r);
    r
  }

  /** The user message of the reply call: it names the source and quotes the
      post. */
  function ReplyPrompt(input: ClassifyInput): (r: string)
    ensures Contains(r, input.source) && Contains(r, input.content)
  {
    var r := "Generate a professional response to this " + input.source + " post: \"" + input.content + "\"";
    PromptQuotes("Generate a professional response to this ", input, r);
    r
  }

  lemma PromptQuotes(lead: string, input: ClassifyInput, r: string)
    requires r == lead + input.source + " post: \"" + input.content + "\""
    ensures Contains(r, input.source) && Contains(r, input.content)
  {
    ContainsPart(lead, input.source, " post: \"" + input.content + "\"");
    assert r == lead + input.source + (" post: \"" + input.content + "\"");
    ContainsPart(lead + input.source + " post: \"", input.content, "\"");
  }

  // ---------------------------------------------------------------- fences

  /** `text.replace(/```json\n?|\n?```/g, '')`: scanning left to right, an
      opening "```json" (with one newline after it, if there is one) is
      removed first; otherwise a "```", with one newline before it if there is
      one, is removed; everything else is kept. */
  function RemoveFences(s: string): (r: string)
    ensures |r| <= |s|
    decreases |s|
  {
    if |s| == 0 then ""
    else if StartsWith(s, "```json") then
      var rest := s[7..];
      RemoveFences(if |rest| > 0 && rest[0] == '\n' then rest[1..] else rest)
    else if StartsWith(s, "\n```") then RemoveFences(s[4..])
    else if StartsWith(s, Fence) then RemoveFences(s[3..])
    else [s[0]] + RemoveFences(s[1..])
  }

  /** The text handed to `JSON.parse`. */
  function StripFences(text: string): (r: string)
    ensures |r| <= |text|
  {
    Trim(RemoveFences(text))
  }

  lemma JsonFenceStartsFence(s: string)
    ensures StartsWith(s, "```json") ==> StartsWith(s, Fence)
  {
    if |s| >= 7 {
      assert s[..3] == s[..7][..3];
    }
  }

  lemma NewlineFenceStartsFence(s: string)
    ensures StartsWith(s, "\n```") ==> |s| > 0 && StartsWith(s[1..], Fence)
  {
    if |s| >= 4 {
      assert s[1..][..3] == s[..4][1..];
    }
  }

  /** Fence-free text starts with none of the three alternatives. */
  lemma FenceFreeStarts(s: string)
    requires !Contains(s, Fence)
    ensures !StartsWith(s, Fence) && !StartsWith(s, "```json") && !StartsWith(s, "\n```")
    ensures |s| > 0 ==> !Contains(s[1..], Fence)
  {
    JsonFenceStartsFence(s);
    NewlineFenceStartsFence(s);
  }

  /** Fence-free text followed by a closing fence does not start with one. */
  lemma NoFenceBeforeClosing(t: string)
    requires !Contains(t, Fence)
    ensures !StartsWith(t + "\n```", Fence)
  {
    var s := t + "\n```";
    FenceFreeStarts(t);
    if |t| >= 3 {
      assert s[..3] == t[..3];
    } else {
      assert s[..3][|t|] == '\n';
    }
  }

  /** Text without "```" in it is left as it is by the replacement. */
  lemma {:induction false} RemoveFencesNoFence(s: string)
    requires !Contains(s, Fence)
    ensures RemoveFences(s) == s
    decreases |s|
  {
    if |s| > 0 {
      FenceFreeStarts(s);
      RemoveFencesNoFence(s[1..]);
      assert s == [s[0]] + s[1..];
    }
  }

  /** ... so such text is only trimmed. */
  lemma StripUnfenced(text: string)
    requires !Contains(text, Fence)
    ensures StripFences(text) == Trim(text)
  {
    RemoveFencesNoFence(text);
  }

  /** A closing fence on its own line after fence-free text is removed with
      its newline. */
  lemma {:induction false} RemoveClosingFence(t: string)
    requires !Contains(t, Fence)
    ensures RemoveFences(t + "\n```") == t
    decreases |t|
  {
    var s := t + "\n```";
    if |t| == 0 {
      assert s == "\n```";
      assert StartsWith(s, "\n```");
      assert s[4..] == "";
    } else {
      NoFenceBeforeClosing(t);
      JsonFenceStartsFence(s);
      FenceFreeStarts(t);
      NoFenceBeforeClosing(t[1..]);
      assert s[1..] == t[1..] + "\n```";
      NewlineFenceStartsFence(s);
      RemoveClosingFence(t[1..]);
      assert t == [t[0]] + t[1..];
    }
  }

  /** The usual fenced reply comes out as its trimmed inside. */
  lemma StripFencedJson(t: string)
    requires !Contains(t, Fence)
    ensures StripFences("```json\n" + t + "\n```") == Trim(t)
  {
    var u := t + "\n```";
    assert "```json\n" + t + "\n```" == "```json\n" + u;
    calc {
      StripFences("```json\n" + u);
      Trim(RemoveFences("```json\n" + u));
      { OpeningFence(u); }
      Trim(RemoveFences(u));
      { RemoveClosingFence(t); }
      Trim(t);
    }
  }

  /** An opening "```json" and its newline are removed together. */
  lemma OpeningFence(u: string)
    ensures RemoveFences("```json\n" + u) == RemoveFences(u)
  {
    var s := "```json\n" + u;
    assert s[..7] == "```json";
    assert s[7..] == "\n" + u;
    assert s[8..] == u;
  }

  /** A newline before the opening fence is taken by the second alternative,
      so the word "json" stays in the text handed to `JSON.parse`. */
  lemma LeadingNewlineKeepsTag(t: string)
    requires !Contains(t, Fence)
    ensures RemoveFences("\n```json\n" + t + "\n```") == "json\n" + t
  {
    var s := "\n```json\n" + t + "\n```";
    assert StartsWith(s, "\n```");
    assert s[..7][0] == '\n';
    var u := "json\n" + t;
    assert s[4..] == u + "\n```";
    assert !Contains(u, Fence) by {
      assert u == "json\n" + t;
      NoFenceInPrefix("json\n", t);
    }
    RemoveClosingFence(u);
  }

  /** Prepending backtick-free text does not create a fence. */
  lemma {:induction false} NoFenceInPrefix(a: string, t: string)
    requires forall i :: 0 <= i < |a| ==> a[i] != '`'
    requires !Contains(t, Fence)
    ensures !Contains(a + t, Fence)
    decreases |a|
  {
    if |a| == 0 {
      assert a + t == t;
    } else {
      assert |a + t| >= 3 ==> (a + t)[..3][0] == a[0];
      assert (a + t)[1..] == a[1..] + t;
      NoFenceInPrefix(a[1..], t);
    }
  }

  // ---------------------------------------------------------------- handler

  function Classified(j: SentimentJson, suggested: Option<string>): Analysis {
    Analysis(j.sentiment, j.score, j.explanation.GetOr(""), suggested)
  }

  /** The handler. `apiKey` is `LOVABLE_API_KEY`; `first` and `second` are
      the outcomes of the classification and reply calls (the second is only
      consulted when it is issued); `decode` is `JSON.parse` with the field
      reads. */
  function Handle(req: Request<ClassifyInput>, apiKey: Option<string>, first: Upstream,
                  decode: string -> Result<SentimentJson>, second: Upstream): (h: Handled)
    ensures |h.calls| <= 2
    ensures |h.calls| > 0 ==> && req.verb != "OPTIONS" && req.body.Ok? && !KeyMissing(apiKey)
                              && h.calls[0] == ClassifyPrompt(req.body.value)
    ensures |h.calls| == 2 ==> first.Reply? && h.calls[1] == ReplyPrompt(req.body.value)
  {
    if req.verb == "OPTIONS" then Handled(Preflight(), [])
    else match req.body
      case Err(msg) => Handled(ServerError(msg), [])
      case Ok(input) =>
        if KeyMissing(apiKey) then Handled(ServerError(MissingKeyMessage), [])
        else
          var calls := [ClassifyPrompt(input)];
          match first
          case NotOk(_) => Handled(ServerError(ClassifyFailedMessage), calls)
          case Failed(msg) => Handled(ServerError(msg), calls)
          case Reply(text) =>
            match decode(StripFences(text))
            case Err(msg) => Handled(ServerError(msg), calls)
            case Ok(j) =>
              if j.sentiment == NegativeLabel then
                var calls' := calls + [ReplyPrompt(input)];
                match second
                case Failed(msg) => Handled(ServerError(msg), calls')
                case NotOk(_) => Handled(JsonOk(Classified(j, None)), calls')
                case Reply(reply) => Handled(JsonOk(Classified(j, Some(Trim(reply)))), calls')
              else Handled(JsonOk(Classified(j, None)), calls)
  }

  /** An OPTIONS request gets a bodiless CORS answer and no LLM call. */
  lemma PreflightMakesNoCall(req: Request<ClassifyInput>, apiKey: Option<string>, first: Upstream,
                             decode: string -> Result<SentimentJson>, second: Upstream)
    requires req.verb == "OPTIONS"
    ensures var h := Handle(req, apiKey, first, decode, second);
            h.response.body.Null? && h.response.headers == CorsHeaders && h.calls == []
  {
  }

  /** Every answer but the preflight is JSON with CORS headers, and it is
      either a 200 with the analysis or a 500 with an error message. */
  lemma ResponsesAreJsonOr500(req: Request<ClassifyInput>, apiKey: Option<string>, first: Upstream,
                              decode: string -> Result<SentimentJson>, second: Upstream)
    requires req.verb != "OPTIONS"
    ensures JsonOr500(Handle(req, apiKey, first, decode, second).response)
  {
    var r := Handle(req, apiKey, first, decode, second).response;
    if req.body.Ok? && !KeyMissing(apiKey) && first.Reply? {
      var d := decode(StripFences(first.text));
      if d.Err? {
        assert r == ServerError(d.message);
      } else if d.value.sentiment != NegativeLabel || second.NotOk? {
        assert r == JsonOk(Classified(d.value, None));
      } else if second.Reply? {
        assert r == JsonOk(Classified(d.value, Some(Trim(second.text))));
      }
    }
  }

  /** A missing key fails before any call, with the fixed message. */
  lemma MissingKeyIs500(input: ClassifyInput, verb: string, apiKey: Option<string>, first: Upstream,
                        decode: string -> Result<SentimentJson>, second: Upstream)
    requires verb != "OPTIONS" && KeyMissing(apiKey)
    ensures Handle(Request(verb, Ok(input)), apiKey, first, decode, second)
            == Handled(Response(500, JsonHeaders, Error(MissingKeyMessage)), [])
  {
  }

  /** A classification call that is not ok fails with the fixed message, and
      no reply call follows. */
  lemma FirstNotOkIs500(req: Request<ClassifyInput>, apiKey: Option<string>, status: nat,
                        decode: string -> Result<SentimentJson>, second: Upstream)
    requires req.verb != "OPTIONS" && req.body.Ok? && !KeyMissing(apiKey)
    ensures var h := Handle(req, apiKey, NotOk(status), decode, second);
            h.response == ServerError(ClassifyFailedMessage) && |h.calls| == 1
  {
  }

  /** Once the classification decodes, the reply call is issued if and only
      if the sentiment is exactly "negative". */
  lemma SecondCallIffNegative(req: Request<ClassifyInput>, apiKey: Option<string>, text: string,
                              decode: string -> Result<SentimentJson>, second: Upstream)
    requires req.verb != "OPTIONS" && req.body.Ok? && !KeyMissing(apiKey)
    requires decode(StripFences(text)).Ok?
    ensures var h := Handle(req, apiKey, Reply(text), decode, second);
            && (|h.calls| == 2 <==> decode(StripFences(text)).value.sentiment == NegativeLabel)
            && h.calls[0] == ClassifyPrompt(req.body.value)
            && (|h.calls| == 2 ==> h.calls[1] == ReplyPrompt(req.body.value))
  {
  }

  /** A successful answer carries the decoded sentiment and score, the
      explanation or "", and a suggested response exactly when the sentiment
      is negative and the reply call succeeded: its trimmed text. A reply
      call that is not ok still gives status 200, with a null suggestion. */
  lemma SuccessfulAnalysis(req: Request<ClassifyInput>, apiKey: Option<string>, text: string,
                           decode: string -> Result<SentimentJson>, second: Upstream)
    requires req.verb != "OPTIONS" && req.body.Ok? && !KeyMissing(apiKey)
    requires decode(StripFences(text)).Ok?
    requires !second.Failed?
    ensures var j := decode(StripFences(text)).value;
            var r := Handle(req, apiKey, Reply(text), decode, second).response;
            && r.status == 200 && r.body.Json?
            && r.body.value.sentiment == j.sentiment
            && r.body.value.sentimentScore == j.score
            && r.body.value.explanation == (if j.explanation.Some? then j.explanation.value else "")
            && (r.body.value.suggestedResponse.Some? <==> j.sentiment == NegativeLabel && second.Reply?)
            && (r.body.value.suggestedResponse.Some? ==> r.body.value.suggestedResponse.value == Trim(second.text))
  {
  }

  /** Every other failure (an unreadable body, a thrown fetch, a reply that
      does not decode, an error thrown while reading the second reply) is a
      500 carrying the thrown message. */
  lemma ThrownErrorsAre500(req: Request<ClassifyInput>, apiKey: Option<string>, first: Upstream,
                           decode: string -> Result<SentimentJson>, second: Upstream, msg: string)
    requires req.verb != "OPTIONS"
    requires || req.body == Err(msg)
             || (req.body.Ok? && !KeyMissing(apiKey) && first == Failed(msg))
             || (req.body.Ok? && !KeyMissing(apiKey) && first.Reply?
                 && decode(StripFences(first.text)) == Err(msg))
             || (req.body.Ok? && !KeyMissing(apiKey) && first.Reply?
                 && decode(StripFences(first.text)).Ok?
                 && decode(StripFences(first.text)).value.sentiment == NegativeLabel
                 && second == Failed(msg))
    ensures Handle(req, apiKey, first, decode, second).response == ServerError(msg)
  {
  }

  /** The end-to-end example: a negative classification with a drafted reply. */
  lemma NegativeExample()
    ensures var input := ClassifyInput("Terrible experience.", "Reddit");
            var reply := "We're sorry to hear that — please reach out.";
            var h := Handle(Request("POST", Ok(input)), Some("key"),
                            Reply("{\"sentiment\":\"negative\",\"score\":0.1,\"explanation\":\"...\"}"),
                            _ => Ok(SentimentJson("negative", 0.1, Some("..."))), Reply(reply));
            h.response == JsonOk(Analysis("negative", 0.1, "...", Some(reply))) && |h.calls| == 2
  {
    var reply := "We're sorry to hear that — please reach out.";
    assert !IsSpace(reply[0]) && !IsSpace(reply[|reply| - 1]);
    assert TrimStart(reply) == reply;
    assert TrimEnd(reply) == reply;
  }

  /** A classification that does not decode gives an error body and 500. */
  lemma MalformedExample(msg: string)
    ensures var h := Handle(Request("POST", Ok(ClassifyInput("Terrible experience.", "Reddit"))), Some("key"),
                            Reply("{\"sentiment\":\"negative\""), _ => Err(msg), NotOk(500));
            h.response.status == 500 && h.response.body == Error(msg) && |h.calls| == 1
  {
  }
}
