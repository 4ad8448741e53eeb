/**
 * The name-generation endpoint: an ordered series of checks (authorization, the generation
 * limit, the request body, the title, the AI key, the AI reply) that ends in bumping the
 * user's generation counter and returning the names with a usage summary.
 */
module GenerateNames {
  import opened Wrappers
  import opened Text
  import opened Usage
  import opened Numbers
  import StripeWebhook

  /** The JSON body; an absent `count` is none. */
  datatype NamesBody = NamesBody(currentTitle: Option<string>, count: Option<int>)

  /** A request: preflight or not, the `Authorization` header, and the body (none: not JSON). */
  datatype NamesRequest = NamesRequest(isPreflight: bool, authorization: Option<string>, body: Option<NamesBody>)

  /** The body of a failed AI response: JSON with an optional `error.message`, or other text. */
  datatype ErrorBody = JsonError(message: Option<string>) | TextError(text: string)

  /**
   * What the AI service gives back: no response at all, a non-OK status, a reply without
   * `choices[0].message.content`, or a reply whose content parses to an array of names or not.
   */
  datatype AiReply =
    | FetchFailed
    | HttpError(status: nat, body: ErrorBody)
    | MalformedReply
    | Reply(names: Option<seq<string>>)

  /**
   * The services the endpoint calls: the token check (`auth.getUser`), the limit check
   * (`can_user_generate`; none when the call errs), the configured AI key, the AI reply, and
   * whether the counter increment succeeds.
   */
  datatype NamesEnv = NamesEnv(
    authenticate: string -> Option<string>,
    canGenerate: Option<bool>,
    openAiKey: Option<string>,
    ai: AiReply,
    incrementOk: bool)

  /** The values the prompt is built from. */
  datatype AiPrompt = AiPrompt(title: string, count: int)

  datatype NamesResponse =
    | Preflight
    | Names(names: seq<string>, usage: UsageData)
    | Failure(status: nat, error: string, requiresUpgrade: bool)

  const DefaultCount: int := 5

  /** JavaScript's `s.replace(pattern, "")` with a string pattern: drops the first occurrence. */
  function RemoveFirst(s: string, pattern: string): (r: string)
    ensures |r| == |s| - |pattern| || r == s
    decreases |s|
  {
    if |s| < |pattern| then s
    else if s[..|pattern|] == pattern then s[|pattern|..]
    else
      var rest := RemoveFirst(s[1..], pattern);
      if rest == s[1..] then s else [s[0]] + rest
  }

  /** The token sent to the token check. */
  function BearerToken(header: string): string {
    RemoveFirst(header, "Bearer ")
  }

  /** The authenticated user: none without a header or when the token check rejects it. */
  function AuthenticatedUser(req: NamesRequest, env: NamesEnv): Option<string> {
    if Truthy(req.authorization) then env.authenticate(BearerToken(req.authorization.value)) else None
  }

  /** The message reported for a failed AI call; a non-JSON body is cut to 200 characters. */
  function ApiErrorMessage(body: ErrorBody): (r: string)
    ensures body.TextError? ==> |r| <= 200 && |r| <= |body.text| && r == body.text[..|r|]
    ensures body.TextError? ==> |r| == Min(200, |body.text|)
    ensures body.TextError? && |body.text| <= 200 ==> r == body.text
    ensures body.JsonError? && !Truthy(body.message) ==> r == "Failed to call OpenAI API"
    ensures body.JsonError? && Truthy(body.message) ==> r == body.message.value
  {
    match body
    case JsonError(message) => if Truthy(message) then message.value else "Failed to call OpenAI API"
    case TextError(text) => text[..Min(200, |text|)]
  }

  /** `increment_generation_count`: a missing usage row counts as 0. */
  function Increment(counts: UsageTable, userId: string): (r: UsageTable)
    ensures r.Keys == counts.Keys + {userId}
    ensures r[userId] == (if userId in counts then counts[userId] else 0) + 1
    ensures forall u :: u in counts && u != userId ==> r[u] == counts[u]
  {
    counts[userId := CountOf(counts, userId).GetOr(0) + 1]
  }

  /**
   * One request. `counts'` is the usage table afterwards and `prompt` the AI request, if one
   * was made; `subs` is the subscription table the summary reads.
   */
  method HandleRequest(req: NamesRequest, env: NamesEnv, counts: UsageTable, subs: StripeWebhook.Table)
    returns (resp: NamesResponse, counts': UsageTable, prompt: Option<AiPrompt>)
    // the order of the checks
    ensures req.isPreflight <==> resp == Preflight
    ensures !req.isPreflight && !Truthy(req.authorization)
            ==> resp == Failure(401, "Missing authorization header", false)
    ensures !req.isPreflight && Truthy(req.authorization) && AuthenticatedUser(req, env).None?
            ==> resp == Failure(401, "Invalid authentication token", false)
    ensures !req.isPreflight && AuthenticatedUser(req, env).Some? && env.canGenerate.None?
            ==> resp == Failure(500, "Failed to check generation limit", false)
    ensures resp.Failure? && resp.requiresUpgrade <==>
            !req.isPreflight && AuthenticatedUser(req, env).Some? && env.canGenerate == Some(false)
    ensures resp.Failure? && resp.requiresUpgrade ==> resp.status == 403
    ensures !req.isPreflight && AuthenticatedUser(req, env).Some? && env.canGenerate == Some(true)
            && req.body.Some? && (!Truthy(req.body.value.currentTitle) || IsBlank(req.body.value.currentTitle.value))
            ==> resp == Failure(400, "Current title is required", false)
    ensures !req.isPreflight && AuthenticatedUser(req, env).Some? && env.canGenerate == Some(true)
            && req.body.None?
            ==> resp == Failure(500, "Internal server error", false)
    ensures !req.isPreflight && AuthenticatedUser(req, env).Some? && env.canGenerate == Some(true)
            && req.body.Some? && Truthy(req.body.value.currentTitle) && !IsBlank(req.body.value.currentTitle.value)
            && !Truthy(env.openAiKey)
            ==> resp == Failure(500, "OpenAI API key not configured", false)
    // the AI call is made only once every check has passed
    ensures prompt.Some? <==>
            && !req.isPreflight && AuthenticatedUser(req, env).Some? && env.canGenerate == Some(true)
            && req.body.Some? && Truthy(req.body.value.currentTitle) && !IsBlank(req.body.value.currentTitle.value)
            && Truthy(env.openAiKey)
    ensures prompt.Some? ==> prompt.value == AiPrompt(req.body.value.currentTitle.value, req.body.value.count.GetOr(DefaultCount))
    ensures prompt.Some? && env.ai.HttpError?
            ==> resp == Failure(env.ai.status, "OpenAI API error: " + ApiErrorMessage(env.ai.body), false)
    ensures prompt.Some? && (env.ai.FetchFailed? || env.ai.MalformedReply?)
            ==> resp == Failure(500, "Internal server error", false)
    ensures prompt.Some? && env.ai.Reply? && env.ai.names.None?
            ==> resp == Failure(500, "Invalid response from AI", false)
    // success, and the counter
    ensures resp.Names? <==> prompt.Some? && env.ai.Reply? && env.ai.names.Some?
    ensures resp.Names? ==> resp.names == env.ai.names.value
    ensures resp.Names? && env.incrementOk ==> counts' == Increment(counts, AuthenticatedUser(req, env).value)
    ensures !(resp.Names? && env.incrementOk) ==> counts' == counts
    ensures resp.Names? ==> var u := AuthenticatedUser(req, env).value;
            resp.usage == Summary(CountOf(counts', u), HasActiveSubscription(subs, u))
    // with the limit check following the free-tier rule, a free user never passes the allowance
    ensures var u := AuthenticatedUser(req, env);
            u.Some? && !HasActiveSubscription(subs, u.value)
            && env.canGenerate == Some(MayGenerate(CountOf(counts, u.value).GetOr(0), false))
            && CountOf(counts, u.value).GetOr(0) <= FreeGenerations
            ==> CountOf(counts', u.value).GetOr(0) <= FreeGenerations
  {
    counts' := counts;
    prompt := None;
    if req.isPreflight {
      resp := Preflight;
      return;
    }
    if !Truthy(req.authorization) {
      resp := Failure(401, "Missing authorization header", false);
      return;
    }
    var user := env.authenticate(BearerToken(req.authorization.value));
    if user.None? {
      resp := Failure(401, "Invalid authentication token", false);
      return;
    }
    if env.canGenerate.None? {
      resp := Failure(500, "Failed to check generation limit", false);
      return;
    }
    if !env.canGenerate.value {
      resp := Failure(403, "Generation limit reached", true);
      return;
    }
    if req.body.None? {
      resp := Failure(500, "Internal server error", false);
      return;
    }
    var title := req.body.value.currentTitle;
    var count := req.body.value.count.GetOr(DefaultCount);
    if !Truthy(title) || IsBlank(title.value) {
      resp := Failure(400, "Current title is required", false);
      return;
    }
    if !Truthy(env.openAiKey) {
      resp := Failure(500, "OpenAI API key not configured", false);
      return;
    }
    prompt := Some(AiPrompt(title.value, count));
    var names: seq<string>;
    match env.ai {
      case FetchFailed =>
        resp := Failure(500, "Internal server error", false);
        return;
      case MalformedReply =>
        resp := Failure(500, "Internal server error", false);
        return;
      case HttpError(status, body) =>
        resp := Failure(status, "OpenAI API error: " + ApiErrorMessage(body), false);
        return;
      case Reply(parsed) =>
        if parsed.None? {
          resp := Failure(500, "Invalid response from AI", false);
          return;
        }
        names := parsed.value;
    }
    if env.incrementOk {
      counts' := Increment(counts, user.value);
    }
    resp := Names(names, Summary(CountOf(counts', user.value), HasActiveSubscription(subs, user.value)));
  }

  /** A header of the form `Bearer <token>` yields the token. */
  lemma BearerTokenOfHeader(token: string)
    ensures BearerToken("Bearer " + token) == token
  {
    var h := "Bearer " + token;
    assert h[..|"Bearer "|] == "Bearer ";
  }

  /** `pattern` occurs in `s` at index `i`. */
  predicate OccursAt(s: string, pattern: string, i: nat) {
    i + |pattern| <= |s| && s[i..i + |pattern|] == pattern
  }

  /** A header without `Bearer ` anywhere is passed on whole. */
  lemma {:induction false} RemoveFirstAbsent(s: string, pattern: string)
    requires forall i: nat :: !OccursAt(s, pattern, i)
    ensures RemoveFirst(s, pattern) == s
    decreases |s|
  {
    if |s| >= |pattern| {
      assert !OccursAt(s, pattern, 0);
      assert s[..|pattern|] == s[0..|pattern|];
      forall i: nat ensures !OccursAt(s[1..], pattern, i) {
        if i + |pattern| <= |s[1..]| {
          assert s[1..][i..i + |pattern|] == s[i + 1..i + 1 + |pattern|];
          assert !OccursAt(s, pattern, i + 1);
        }
      }
      RemoveFirstAbsent(s[1..], pattern);
    }
  }

  /** In general the first occurrence of the pattern is cut out and everything else kept:
      `"Token Bearer x"` gives `"Token x"`. */
  lemma {:induction false} RemoveFirstOccurrence(s: string, pattern: string, i: nat)
    requires OccursAt(s, pattern, i)
    requires forall j: nat :: j < i ==> !OccursAt(s, pattern, j)
    ensures RemoveFirst(s, pattern) == s[..i] + s[i + |pattern|..]
    decreases |s|
  {
    assert s[..|pattern|] == s[0..|pattern|];
    if i > 0 {
      assert !OccursAt(s, pattern, 0);
      var t := s[1..];
      OccursInTail(s, pattern, i - 1);
      forall j: nat | j < i - 1 ensures !OccursAt(t, pattern, j) {
        OccursInTail(s, pattern, j);
      }
      RemoveFirstOccurrence(t, pattern, i - 1);
      CutInTail(s, pattern, i);
    }
  }

  /** An occurrence in the tail is an occurrence one further on in the whole. */
  lemma OccursInTail(s: string, pattern: string, j: nat)
    requires |s| > 0
    ensures OccursAt(s[1..], pattern, j) <==> OccursAt(s, pattern, j + 1)
  {
    if j + |pattern| <= |s| - 1 {
      assert s[1..][j..j + |pattern|] == s[j + 1..j + 1 + |pattern|];
    }
  }

  /** Cutting a non-empty occurrence out of the tail, then restoring the head. */
  lemma CutInTail(s: string, pattern: string, i: nat)
    requires 0 < i && i + |pattern| <= |s| && |pattern| > 0
    ensures var t := s[1..]; var rest := t[..i - 1] + t[i - 1 + |pattern|..];
      rest != t && [s[0]] + rest == s[..i] + s[i + |pattern|..]
  {
    var t := s[1..];
    var rest := t[..i - 1] + t[i - 1 + |pattern|..];
    assert |rest| < |t|;
    assert [s[0]] + rest == s[..i] + s[i + |pattern|..];
  }

  /** The example above. */
  lemma BearerInsideHeader()
    ensures BearerToken("Token Bearer x") == "Token x"
  {
    var s := "Token Bearer x";
    forall j: nat | j < 6 ensures !OccursAt(s, "Bearer ", j) {
      assert s[j] != 'B' || j + 7 > |s|;
      if j + 7 <= |s| {
        assert s[j..j + 7][0] == s[j];
      }
    }
    assert s[6..13] == "Bearer ";
    RemoveFirstOccurrence(s, "Bearer ", 6);
    assert s[..6] + s[13..] == "Token x";
  }
}
