/**
 * The recommendations endpoint (`GET /api/recommendations`): it checks that a
 * user is signed in, reads that user's profile, asks the completion service for
 * recommendations, recovers a JSON object from the reply text, and gives each
 * recommendation a LeetCode problem-set filter link.
 *
 * The awaited calls are parameters. `readProfile` is the profile query keyed by
 * user id, and `complete` is the chat-completion call. `parse` stands for
 * `JSON.parse`, which is `None` where it would throw. `encode` stands for
 * `encodeURIComponent`, and `numeral` for Number::toString.
 */
module Recommendations {
  import opened Wrappers
  import opened Text
  import opened JsonValue

  /** The projection of the `profiles` row the route selects. */
  datatype Profile = Profile(
    id: string,
    email: Option<string>,
    fullName: Option<string>,
    targetRole: Option<string>,
    experienceLevel: Option<string>,
    focusTopics: Option<seq<string>>,
    strengths: Option<string>,
    challenges: Option<string>)

  /** The awaited `.single()` read: whether it reported an error, and the row if one came back. */
  datatype ProfileRead = ProfileRead(failed: bool, row: Option<Profile>)

  /** What the route sends to the completion service besides the fixed system prompt. */
  datatype CompletionRequest = CompletionRequest(
    model: string,
    temperature: real,
    profile: Profile,
    maxTotalCount: int,
    preferFreshPracticeMix: bool)

  /**
   * The awaited completion call: it either throws (the route does not catch it)
   * or yields the content of the first choice, absent when there is no choice,
   * no message or no content.
   */
  datatype Completion = CallFailed | Completed(content: Option<string>)

  /** The route's answer: a JSON reply with a status, or an exception the route lets escape. */
  datatype Response = Reply(status: int, body: Json) | Unhandled

  const DefaultModel := "llama3-70b-8192"
  const ProblemsetPrefix := "https://leetcode.com/problemset/?topicSlugs="

  function ErrorBody(message: string): Json
  {
    JObject([Member("error", JString(message))])
  }

  /** `process.env.GROQ_MODEL || default`: an unset or empty variable selects the default model. */
  function ModelName(env: Option<string>): (m: string)
    ensures env.Some? && env.value != "" ==> m == env.value
    ensures env.None? || env.value == "" ==> m == DefaultModel
  {
    if env.Some? && env.value != "" then env.value else DefaultModel
  }

  function RequestFor(profile: Profile, modelEnv: Option<string>): CompletionRequest
  {
    CompletionRequest(ModelName(modelEnv), 0.2, profile, 25, true)
  }

  /** `content ?? "{}"`: missing content is read as an empty object. */
  function RawContent(content: Option<string>): (raw: string)
    ensures content.Some? ==> raw == content.value
    ensures content.None? ==> raw == "{}"
  {
    if content.Some? then content.value else "{}"
  }

  /** `s` holds an opening brace somewhere before a closing brace. */
  predicate HasBracePair(s: string)
  {
    exists i, j :: 0 <= i < j < |s| && s[i] == '{' && s[j] == '}'
  }

  /**
   * `s.slice(a, b + 1)` for `a = s.indexOf("{")` and `b = s.lastIndexOf("}")`,
   * taken only when both exist and `b > a`: the span from the first `{` to the
   * last `}` inclusive. It exists exactly when some `{` comes before some `}`.
   */
  function BraceSpan(s: string): (r: Option<string>)
    ensures r.Some? <==> HasBracePair(s)
    ensures r.Some? ==>
      var a, b := IndexOf(s, '{'), LastIndexOf(s, '}');
      && 0 <= a < b < |s| && r.value == s[a..b + 1]
      && r.value[0] == '{' && r.value[|r.value| - 1] == '}'
  {
    BracePairIff(s);
    var a, b := IndexOf(s, '{'), LastIndexOf(s, '}');
    if a != -1 && b != -1 && b > a then
      assert s[a..b + 1][0] == s[a] && s[a..b + 1][b - a] == s[b];
      Some(s[a..b + 1])
    else None
  }

  /** There is a `{` before a `}` exactly when the first `{` comes before the last `}`. */
  lemma BracePairIff(s: string)
    ensures HasBracePair(s) <==> 0 <= IndexOf(s, '{') < LastIndexOf(s, '}')
  {
    var a, b := IndexOf(s, '{'), LastIndexOf(s, '}');
    if 0 <= a < b {
      assert s[a] == '{' && s[b] == '}';
    }
    if HasBracePair(s) {
      var i, j :| 0 <= i < j < |s| && s[i] == '{' && s[j] == '}';
    }
  }

  /**
   * `safeParseJson`: parse the whole text; failing that, parse the brace span;
   * failing that, or without a span, `null` (here `None`).
   */
  function SafeParseJson(s: string, parse: string -> Option<Json>): (r: Option<Json>)
    ensures parse(s).Some? ==> r == parse(s)
    ensures parse(s).None? && !HasBracePair(s) ==> r.None?
    ensures parse(s).None? && HasBracePair(s) ==> r == parse(BraceSpan(s).value)
  {
    if parse(s).Some? then parse(s)
    else
      var span := BraceSpan(s);
      if span.Some? then parse(span.value) else None
  }

  /** The display difficulty in the link: `"EASY"` and `"HARD"` map to themselves capitalised, anything else to `"Medium"`. */
  function DisplayDifficulty(d: Option<Json>): (r: string)
    ensures r == "Easy" <==> d == Some(JString("EASY"))
    ensures r == "Hard" <==> d == Some(JString("HARD"))
    ensures r == "Medium" <==> d != Some(JString("EASY")) && d != Some(JString("HARD"))
  {
    if d == Some(JString("EASY")) then "Easy"
    else if d == Some(JString("HARD")) then "Hard"
    else "Medium"
  }

  /** The LeetCode problem-set link of one recommendation `r`, built from `r.tagSlug` and `r.difficulty`. */
  function LeetcodeUrl(item: Json, encode: string -> string, numeral: real -> string): (url: string)
    ensures ProblemsetPrefix <= url
    ensures var d := DisplayDifficulty(Prop(item, "difficulty"));
      && d in {"Easy", "Medium", "Hard"}
      && |url| >= |d| && url[|url| - |d|..] == d
  {
    ProblemsetPrefix + encode(ToJsString(Prop(item, "tagSlug"), numeral)) +
    "&difficulty=" + DisplayDifficulty(Prop(item, "difficulty"))
  }

  /**
   * `{ ...r, leetcodeUrl }`. Reading `r.difficulty` throws when `r` is `null`
   * (result `None`). Otherwise the item is copied and `leetcodeUrl` is set.
   */
  function AnnotateItem(item: Json, encode: string -> string, numeral: real -> string): (r: Option<Json>)
    ensures r.None? <==> item.JNull?
    ensures r.Some? ==> r.value.JObject? && Lookup(r.value.members, "leetcodeUrl") == Some(JString(LeetcodeUrl(item, encode, numeral)))
    ensures r.Some? && item.JObject? && "leetcodeUrl" !in Keys(item.members) ==>
      Keys(r.value.members) == Keys(item.members) + ["leetcodeUrl"]
  {
    if item.JNull? then None
    else
      PutKeys(Spread(item), "leetcodeUrl", JString(LeetcodeUrl(item, encode, numeral)));
      Some(JObject(Put(Spread(item), "leetcodeUrl", JString(LeetcodeUrl(item, encode, numeral)))))
  }

  /** Apart from `leetcodeUrl`, an annotated item has exactly the properties of the original. */
  lemma AnnotateKeepsFields(item: Json, encode: string -> string, numeral: real -> string, key: string)
    requires item.JObject? && key != "leetcodeUrl"
    ensures Lookup(AnnotateItem(item, encode, numeral).value.members, key) == Lookup(item.members, key)
  {
    PutKeepsOthers(item.members, "leetcodeUrl", JString(LeetcodeUrl(item, encode, numeral)), key);
  }

  /**
   * `items.map(f)` with a callback that may throw (`None`): every item mapped, in
   * order, unless some item makes the callback throw, which aborts the map.
   */
  function MapItems(items: seq<Json>, f: Json -> Option<Json>): (r: Option<seq<Json>>)
    ensures r.None? <==> exists k :: 0 <= k < |items| && f(items[k]).None?
    ensures r.Some? ==> |r.value| == |items|
    ensures r.Some? ==> forall k :: 0 <= k < |items| ==> Some(r.value[k]) == f(items[k])
  {
    if items == [] then Some([])
    else
      var head := f(items[0]);
      var tail := MapItems(items[1..], f);
      if head.None? then None
      else if tail.None? then
        var k :| 0 <= k < |items[1..]| && f(items[1..][k]).None?;
        assert f(items[k + 1]).None?;
        None
      else
        var r := [head.value] + tail.value;
        assert forall k :: 1 <= k < |items| ==> r[k] == tail.value[k - 1] && items[k] == items[1..][k - 1];
        Some(r)
  }

  /** `recommendations.map(...)`: the list with every item annotated; it throws if some item is `null`. */
  function AnnotateAll(items: seq<Json>, encode: string -> string, numeral: real -> string): (r: Option<seq<Json>>)
    ensures r.None? <==> JNull in items
    ensures r.Some? ==> |r.value| == |items|
  {
    var f := item => AnnotateItem(item, encode, numeral);
    var r := MapItems(items, f);
    assert r.None? ==> JNull in items by {
      if r.None? { var k :| 0 <= k < |items| && f(items[k]).None?; }
    }
    assert JNull in items ==> r.None? by {
      if JNull in items { var k :| 0 <= k < |items| && items[k] == JNull; assert f(items[k]).None?; }
    }
    r
  }

  /**
   * `{ ...parsed, recommendations: (parsed.recommendations ?? []).map(...) }`.
   * A `null` or missing list is read as `[]`; any other non-array makes `.map`
   * throw (`None`).
   */
  function WithLinks(parsed: Json, encode: string -> string, numeral: real -> string): (r: Option<Json>)
    ensures var recs := Prop(parsed, "recommendations");
      (recs.None? || recs == Some(JNull)) ==> r == Some(JObject(Put(Spread(parsed), "recommendations", JArray([]))))
    ensures var recs := Prop(parsed, "recommendations");
      r.None? <==> recs.Some? && !recs.value.JNull? && (!recs.value.JArray? || JNull in recs.value.items)
    ensures r.Some? ==> r.value.JObject? && Lookup(r.value.members, "recommendations").Some?
  {
    var recs := Prop(parsed, "recommendations");
    var list :=
      if recs.None? || recs == Some(JNull) then Some([])
      else if recs.value.JArray? then AnnotateAll(recs.value.items, encode, numeral)
      else None;
    if list.None? then None else Some(JObject(Put(Spread(parsed), "recommendations", JArray(list.value))))
  }

  /** Every top-level property other than `recommendations` passes through unchanged. */
  lemma WithLinksKeepsFields(parsed: Json, encode: string -> string, numeral: real -> string, key: string)
    requires key != "recommendations"
    requires WithLinks(parsed, encode, numeral).Some?
    ensures Lookup(WithLinks(parsed, encode, numeral).value.members, key) == Lookup(Spread(parsed), key)
  {
    var recs := Prop(parsed, "recommendations");
    var list :=
      if recs.None? || recs == Some(JNull) then Some([])
      else if recs.value.JArray? then AnnotateAll(recs.value.items, encode, numeral)
      else None;
    PutKeepsOthers(Spread(parsed), "recommendations", JArray(list.value), key);
  }

  /**
   * A well-formed list of recommendations comes back as a list of the same
   * length whose k-th entry is the k-th item with its link added.
   */
  lemma WithLinksAnnotatesEach(parsed: Json, encode: string -> string, numeral: real -> string)
    requires parsed.JObject?
    requires var recs := Lookup(parsed.members, "recommendations");
      recs.Some? && recs.value.JArray? && JNull !in recs.value.items
    ensures var items := Lookup(parsed.members, "recommendations").value.items;
      && WithLinks(parsed, encode, numeral).Some?
      && var out := Lookup(WithLinks(parsed, encode, numeral).value.members, "recommendations").value;
      && out.JArray? && |out.items| == |items|
      && forall k :: 0 <= k < |items| ==> Some(out.items[k]) == AnnotateItem(items[k], encode, numeral)
  {
  }

  /** The whole `GET` handler, from the signed-in user (if any) to the response. */
  function Get(
    user: Option<string>,
    readProfile: string -> ProfileRead,
    modelEnv: Option<string>,
    complete: CompletionRequest -> Completion,
    parse: string -> Option<Json>,
    encode: string -> string,
    numeral: real -> string): (r: Response)
    ensures user.None? ==> r == Reply(401, ErrorBody("Not authenticated"))
    ensures user.Some? && (readProfile(user.value).failed || readProfile(user.value).row.None?) ==>
      r == Reply(404, ErrorBody("Profile not found"))
    ensures r.Reply? && r.status == 200 ==> r.body.JObject? && Lookup(r.body.members, "recommendations").Some?
    ensures r.Reply? ==> r.status in {200, 401, 404, 502}
  {
    if user.None? then Reply(401, ErrorBody("Not authenticated"))
    else
      var read := readProfile(user.value);
      if read.failed || read.row.None? then Reply(404, ErrorBody("Profile not found"))
      else
        match complete(RequestFor(read.row.value, modelEnv))
        case CallFailed => Unhandled
        case Completed(content) =>
          var parsed := SafeParseJson(RawContent(content), parse);
          if !Truthy(parsed) then Reply(502, ErrorBody("LLM returned invalid JSON"))
          else
            match WithLinks(parsed.value, encode, numeral)
            case None => Unhandled
            case Some(body) => Reply(200, body)
  }

  /** A completion call that throws escapes the route. */
  lemma CallFailedIsUnhandled(
    user: string, readProfile: string -> ProfileRead, modelEnv: Option<string>,
    complete: CompletionRequest -> Completion, parse: string -> Option<Json>,
    encode: string -> string, numeral: real -> string)
    requires !readProfile(user).failed && readProfile(user).row.Some?
    requires complete(RequestFor(readProfile(user).row.value, modelEnv)).CallFailed?
    ensures Get(Some(user), readProfile, modelEnv, complete, parse, encode, numeral) == Unhandled
  {
  }

  /**
   * Once a truthy value is recovered from the completion, the route answers 200
   * with exactly the annotated value, or lets the exception from `.map` escape.
   */
  lemma RecoveredValueAnswer(
    user: string, readProfile: string -> ProfileRead, modelEnv: Option<string>,
    complete: CompletionRequest -> Completion, parse: string -> Option<Json>,
    encode: string -> string, numeral: real -> string)
    requires !readProfile(user).failed && readProfile(user).row.Some?
    requires complete(RequestFor(readProfile(user).row.value, modelEnv)).Completed?
    requires Truthy(SafeParseJson(RawContent(complete(RequestFor(readProfile(user).row.value, modelEnv)).content), parse))
    ensures
      var parsed := SafeParseJson(RawContent(complete(RequestFor(readProfile(user).row.value, modelEnv)).content), parse);
      var links := WithLinks(parsed.value, encode, numeral);
      var r := Get(Some(user), readProfile, modelEnv, complete, parse, encode, numeral);
      && (links.Some? ==> r == Reply(200, links.value))
      && (links.None? ==> r == Unhandled)
  {
  }

  /** A falsy recovery result (`null`, `false`, `0`, `""`) is answered with 502, and the links are never built. */
  lemma InvalidJsonIs502(
    user: string, readProfile: string -> ProfileRead, modelEnv: Option<string>,
    complete: CompletionRequest -> Completion, parse: string -> Option<Json>,
    encode: string -> string, numeral: real -> string)
    requires !readProfile(user).failed && readProfile(user).row.Some?
    requires complete(RequestFor(readProfile(user).row.value, modelEnv)).Completed?
    requires !Truthy(SafeParseJson(RawContent(complete(RequestFor(readProfile(user).row.value, modelEnv)).content), parse))
    ensures Get(Some(user), readProfile, modelEnv, complete, parse, encode, numeral) == Reply(502, ErrorBody("LLM returned invalid JSON"))
  {
  }

  /**
   * A completion without content is read as `"{}"`, which `JSON.parse` turns
   * into an empty object: the answer is 200 with an empty list.
   */
  lemma MissingContentIsEmptyList(
    user: string, readProfile: string -> ProfileRead, modelEnv: Option<string>,
    complete: CompletionRequest -> Completion, parse: string -> Option<Json>,
    encode: string -> string, numeral: real -> string)
    requires !readProfile(user).failed && readProfile(user).row.Some?
    requires complete(RequestFor(readProfile(user).row.value, modelEnv)) == Completed(None)
    requires parse("{}") == Some(JObject([]))
    ensures Get(Some(user), readProfile, modelEnv, complete, parse, encode, numeral) ==
      Reply(200, JObject([Member("recommendations", JArray([]))]))
  {
  }
}
