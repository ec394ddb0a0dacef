/** The chat plugin's `Filter`: the pure helpers it applies to a completed
    chat body. The wall clock and the network are not modelled: the week
    label and the message's CO2 figure are parameters, and the metrics call
    becomes an output value. */
module Filter {
  import opened Wrappers
  import Ingestion

  /** One element of `body["messages"]`. Only a dict can have a `"content"`
      key; `otherFields` stands for its remaining keys (role, id, ...). */
  datatype Message =
    | DictMessage(content: Option<string>, otherFields: map<string, string>)
    | NonDictMessage

  /** The `metadata` dict of a body; only its `"model"` key is read. */
  datatype Metadata = Metadata(model: Option<string>, otherFields: map<string, string>)

  /** The chat body handed to `outlet`; `None` marks an absent key. */
  datatype Body = Body(
    model: Option<string>,
    messages: Option<seq<Message>>,
    metadata: Option<Metadata>,
    otherFields: map<string, string>)

  /** The plugin's configuration (`Filter.Valves`). */
  datatype Valves = Valves(
    watts: real, grCo2KWh: real, apiUrl: string, apiToken: string, org: string, dashboardUrl: string)

  const DefaultValves := Valves(350.0, 55.0, "http://localhost:8000", "your-secret-token",
                                "default-org", "https://dashboard_url.club")

  /** Characters a message contributes to the token estimate. */
  function CharsOf(m: Message): nat {
    match m
    case DictMessage(Some(c), _) => |c|
    case _ => 0
  }

  /** Total length of all contents, accumulated front to back. */
  function TotalChars(ms: seq<Message>): nat
    decreases |ms|
  {
    if |ms| == 0 then 0 else TotalChars(ms[..|ms| - 1]) + CharsOf(ms[|ms| - 1])
  }

  lemma {:induction false} TotalCharsAppend(a: seq<Message>, b: seq<Message>)
    ensures TotalChars(a + b) == TotalChars(a) + TotalChars(b)
    decreases |b|
  {
    if |b| > 0 {
      var b' := b[..|b| - 1];
      assert (a + b)[..|a + b| - 1] == a + b';
      assert (a + b)[|a + b| - 1] == b[|b| - 1];
      TotalCharsAppend(a, b');
    } else {
      assert a + b == a;
    }
  }

  /** The token estimate: about four characters per token, and never less
      than one. It is 1 exactly when fewer than eight characters were
      seen, and otherwise the floor of the character count over four. */
  function TokenEstimate(ms: seq<Message>): (r: nat)
    ensures r >= 1
    ensures r == 1 <==> TotalChars(ms) < 8
    ensures r > 1 ==> 4 * r <= TotalChars(ms) < 4 * r + 4
  {
    var estimated := TotalChars(ms) / 4;
    if estimated > 1 then estimated else 1
  }

  /** `estimate_token_count`, with the loop over the message list. */
  method EstimateTokenCount(messages: seq<Message>) returns (tokens: nat)
    ensures tokens == TokenEstimate(messages)
  {
    var totalChars := 0;
    var i := 0;
    while i < |messages|
      invariant 0 <= i <= |messages|
      invariant totalChars == TotalChars(messages[..i])
    {
      assert messages[..i + 1][..i] == messages[..i];
      match messages[i] {
        case DictMessage(Some(c), _) =>
          totalChars := totalChars + |c|;
        case _ =>
      }
      i := i + 1;
    }
    assert messages[..i] == messages;
    var estimated := totalChars / 4;
    tokens := if estimated > 1 then estimated else 1;
  }

  /** Adding messages never lowers the estimate; messages that carry no
      content leave it unchanged. */
  lemma TokenEstimateMonotone(a: seq<Message>, b: seq<Message>)
    ensures TokenEstimate(a) <= TokenEstimate(a + b)
    ensures TotalChars(b) == 0 ==> TokenEstimate(a + b) == TokenEstimate(a)
  {
    TotalCharsAppend(a, b);
  }

  /** The body has a `"messages"` key holding a non-empty list. */
  predicate HasMessages(b: Body) {
    b.messages.Some? && |b.messages.value| > 0
  }

  /** `body.get("metadata", {}).get("model", "unknown")`. */
  function MetadataModel(b: Body): (r: string)
    ensures b.metadata.Some? && b.metadata.value.model.Some? ==> r == b.metadata.value.model.value
    ensures b.metadata.None? || b.metadata.value.model.None? ==> r == "unknown"
  {
    match b.metadata
    case None => "unknown"
    case Some(md) => md.model.GetOr("unknown")
  }

  /** `extract_model_from_body`: the top-level `"model"` key when present;
      otherwise the metadata model, but only when the body has messages. */
  function ExtractModel(b: Body): (r: string)
    ensures b.model.Some? ==> r == b.model.value
    ensures b.model.None? && HasMessages(b) ==> r == MetadataModel(b)
    ensures b.model.None? && !HasMessages(b) ==> r == "unknown"
  {
    if b.model.Some? then b.model.value
    else if HasMessages(b) then MetadataModel(b)
    else "unknown"
  }

  /** The result always comes from the body or is the literal fallback. */
  lemma ExtractModelOrigin(b: Body)
    ensures ExtractModel(b) == "unknown"
         || (b.model.Some? && ExtractModel(b) == b.model.value)
         || (b.metadata.Some? && b.metadata.value.model == Some(ExtractModel(b)))
  {
  }

  /** A top-level model wins whatever the other fields hold, and without
      messages a metadata model is never consulted. */
  lemma ExtractModelIgnoresOtherFields(b: Body, b': Body)
    ensures b.model.Some? && b'.model == b.model ==> ExtractModel(b') == ExtractModel(b)
    ensures b.model.None? && b'.model.None? && !HasMessages(b) && !HasMessages(b')
            ==> ExtractModel(b) == ExtractModel(b') == "unknown"
  {
  }

  /** The per-user weekly cache, keyed by `"<user_id>_<year>-<week>"`. */
  type WeeklyCache = map<string, real>

  /** The key splits back into the user id, one underscore and the week label. */
  function CacheKey(userId: string, week: string): (r: string)
    ensures |r| == |userId| + 1 + |week|
    ensures r[..|userId|] == userId && r[|userId|] == '_' && r[|userId| + 1..] == week
  {
    userId + "_" + week
  }

  /** Keys of one week format never collide: when the week labels have the
      same length (as every `%Y-%W` label for a four-digit year does),
      distinct users or distinct weeks give distinct keys. */
  lemma CacheKeyInjective(u1: string, w1: string, u2: string, w2: string)
    requires |w1| == |w2|
    ensures CacheKey(u1, w1) == CacheKey(u2, w2) <==> u1 == u2 && w1 == w2
  {
  }

  /** `get_user_weekly_total`: the cached total, zero for a key never updated. */
  function WeeklyTotal(cache: WeeklyCache, userId: string, week: string): (r: real)
    ensures CacheKey(userId, week) !in cache ==> r == 0.0
    ensures CacheKey(userId, week) in cache ==> r == cache[CacheKey(userId, week)]
  {
    var key := CacheKey(userId, week);
    if key in cache then cache[key] else 0.0
  }

  /** `update_user_weekly_cache`: adds `co2` to one user's total for one week. */
  function UpdateWeeklyCache(cache: WeeklyCache, userId: string, week: string, co2: real): (r: WeeklyCache)
    ensures WeeklyTotal(r, userId, week) == WeeklyTotal(cache, userId, week) + co2
    ensures r.Keys == cache.Keys + {CacheKey(userId, week)}
    ensures forall k :: k in cache && k != CacheKey(userId, week) ==> r[k] == cache[k]
  {
    cache[CacheKey(userId, week) := WeeklyTotal(cache, userId, week) + co2]
  }

  /** An update is invisible to every other user and every other week. */
  lemma UpdateLeavesOthers(cache: WeeklyCache, u: string, w: string, co2: real, v: string, w': string)
    requires |w| == |w'|
    requires u != v || w != w'
    ensures WeeklyTotal(UpdateWeeklyCache(cache, u, w, co2), v, w') == WeeklyTotal(cache, v, w')
  {
  }

  /** One call of `update_user_weekly_cache` with its week label. */
  datatype CacheUpdate = CacheUpdate(userId: string, week: string, co2: real)

  function ApplyUpdates(cache: WeeklyCache, ups: seq<CacheUpdate>): WeeklyCache
    decreases |ups|
  {
    if |ups| == 0 then cache
    else ApplyUpdates(UpdateWeeklyCache(cache, ups[0].userId, ups[0].week, ups[0].co2), ups[1..])
  }

  /** Reference total: the CO2 of every update for this user and week. */
  function SumFor(ups: seq<CacheUpdate>, userId: string, week: string): real {
    if |ups| == 0 then 0.0
    else (if ups[0].userId == userId && ups[0].week == week then ups[0].co2 else 0.0)
         + SumFor(ups[1..], userId, week)
  }

  /** After any sequence of updates labelled in one week format, a user's
      weekly total is the starting total plus the CO2 of exactly that user's
      updates in that week. */
  lemma {:induction false} WeeklyTotalIsSumOfUpdates(cache: WeeklyCache, ups: seq<CacheUpdate>, userId: string, week: string)
    requires forall i :: 0 <= i < |ups| ==> |ups[i].week| == |week|
    ensures WeeklyTotal(ApplyUpdates(cache, ups), userId, week) == WeeklyTotal(cache, userId, week) + SumFor(ups, userId, week)
    decreases |ups|
  {
    if |ups| > 0 {
      var c1 := UpdateWeeklyCache(cache, ups[0].userId, ups[0].week, ups[0].co2);
      if ups[0].userId != userId || ups[0].week != week {
        UpdateLeavesOthers(cache, ups[0].userId, ups[0].week, ups[0].co2, userId, week);
      }
      assert forall i :: 0 <= i < |ups[1..]| ==> ups[1..][i] == ups[i + 1];
      WeeklyTotalIsSumOfUpdates(c1, ups[1..], userId, week);
    }
  }

  /** Appends `note` to the content of the last message, when the body has
      messages and the last one is a dict with a `"content"` key. */
  function AppendNote(b: Body, note: string): (r: Body)
    ensures r.model == b.model && r.metadata == b.metadata && r.otherFields == b.otherFields
    ensures r.messages.Some? <==> b.messages.Some?
    ensures b.messages.Some? ==> |r.messages.value| == |b.messages.value|
    ensures b.messages.Some? ==> forall i :: 0 <= i < |b.messages.value| - 1 ==> r.messages.value[i] == b.messages.value[i]
    ensures HasMessages(b) ==>
      var last := b.messages.value[|b.messages.value| - 1];
      var last' := r.messages.value[|r.messages.value| - 1];
      if last.DictMessage? && last.content.Some? then
        last' == last.(content := Some(last.content.value + note))
      else last' == last
    ensures !HasMessages(b) ==> r == b
  {
    if HasMessages(b) then
      var ms := b.messages.value;
      var last := ms[|ms| - 1];
      match last
      case DictMessage(Some(c), fields) =>
        b.(messages := Some(ms[..|ms| - 1] + [DictMessage(Some(c + note), fields)]))
      case _ => b
    else b
  }

  /** Removes `note` from the end of the last message's content, if it is there. */
  function DropNote(b: Body, note: string): Body {
    if HasMessages(b) then
      var ms := b.messages.value;
      match ms[|ms| - 1]
      case DictMessage(Some(c), fields) =>
        if |note| <= |c| && c[|c| - |note|..] == note
        then b.(messages := Some(ms[..|ms| - 1] + [DictMessage(Some(c[..|c| - |note|]), fields)]))
        else b
      case _ => b
    else b
  }

  /** The rewrite loses nothing: the original body is recovered by removing
      the appended note again. */
  lemma DropNoteUndoesAppend(b: Body, note: string)
    ensures DropNote(AppendNote(b, note), note) == b
  {
    if HasMessages(b) {
      var ms := b.messages.value;
      match ms[|ms| - 1]
      case DictMessage(Some(c), fields) =>
        var c' := c + note;
        assert c'[|c'| - |note|..] == note;
        assert c'[..|c'| - |note|] == c;
        var ms' := ms[..|ms| - 1] + [DictMessage(Some(c'), fields)];
        assert ms'[..|ms'| - 1] == ms[..|ms| - 1];
        assert ms[..|ms| - 1] + [ms[|ms| - 1]] == ms;
      case _ =>
    }
  }

  /** The fields the CO2 note is rendered from. */
  datatype Note = Note(co2: real, model: string, tokens: nat, weeklyTotal: real, dashboardUrl: string, userId: string)

  /** A metrics call the plugin makes: the target URL, the bearer credential
      and the JSON body. */
  datatype Dispatch = Dispatch(url: string, credential: string, report: Ingestion.Request)

  /** What `outlet` produces: the new cache, the returned body, the metrics
      call it makes and the text it emits as a separate message. */
  datatype OutletResult = OutletResult(
    cache: WeeklyCache, body: Body, sent: Option<Dispatch>, emitted: Option<string>)

  /** `outlet` for a message whose CO2 figure is `co2`, for the user id
      `user` (`None` when no user is attached). The clock is read twice:
      `updateWeek` is the week label when the cache is updated and
      `readWeek` the one when the weekly total is read back. `render` turns
      the note's fields into its text. */
  function Outlet(valves: Valves, cache: WeeklyCache, b: Body, user: Option<string>,
                  co2: real, updateWeek: string, readWeek: string, render: Note -> string): (r: OutletResult)
    ensures user.None? ==> r == OutletResult(cache, b, None, None)
    ensures user.Some? ==>
      && WeeklyTotal(r.cache, user.value, updateWeek) == WeeklyTotal(cache, user.value, updateWeek) + co2
      && r.cache == UpdateWeeklyCache(cache, user.value, updateWeek, co2)
    ensures user.Some? ==>
      var tokens := TokenEstimate(b.messages.GetOr([]));
      var note := Note(co2, ExtractModel(b), tokens, WeeklyTotal(r.cache, user.value, readWeek),
                       valves.dashboardUrl, user.value);
      && r.sent == Some(Dispatch(valves.apiUrl + Ingestion.RequestPath, valves.apiToken,
                          Ingestion.Request(user.value, co2, ExtractModel(b), tokens, valves.org)))
      && r.emitted == Some(render(note))
      && r.body == AppendNote(b, render(note))
    // Within one week the reported total includes this message's CO2; when
    // the week changes between the two readings it is the new week's total,
    // which does not.
    ensures user.Some? && updateWeek == readWeek ==>
      WeeklyTotal(r.cache, user.value, readWeek) == WeeklyTotal(cache, user.value, readWeek) + co2
    ensures user.Some? && updateWeek != readWeek && |updateWeek| == |readWeek| ==>
      WeeklyTotal(r.cache, user.value, readWeek) == WeeklyTotal(cache, user.value, readWeek)
  {
    match user
    case None => OutletResult(cache, b, None, None)
    case Some(userId) =>
      var model := ExtractModel(b);
      var tokens := TokenEstimate(b.messages.GetOr([]));
      var cache' := UpdateWeeklyCache(cache, userId, updateWeek, co2);
      var weeklyTotal := WeeklyTotal(cache', userId, readWeek);
      var dispatch := Dispatch(valves.apiUrl + Ingestion.RequestPath, valves.apiToken,
                               Ingestion.Request(userId, co2, model, tokens, valves.org));
      var text := render(Note(co2, model, tokens, weeklyTotal, valves.dashboardUrl, userId));
      OutletResult(cache', AppendNote(b, text), Some(dispatch), Some(text))
  }
}
