/** The metrics ingestion service: four labelled Prometheus counters and the
    one authenticated write endpoint that increments them. The counter
    registry is an immutable value and each request is one atomic step from
    a registry to the next. */
module Ingestion {
  import opened Wrappers

  /** Label values of the three series partitioned by `{model, org}`. */
  datatype ModelLabels = ModelLabels(model: string, org: string)

  /** Label values of the series partitioned by `{user_id, org}`. */
  datatype UserLabels = UserLabels(userId: string, org: string)

  /** The body of `POST /api/v1/request`. The field types are checked by the
      web framework; the signs of the two amounts are not. */
  datatype Request = Request(userId: string, co2Emission: real, model: string, tokenNb: int, org: string)

  /** The four counter series. A label combination that was never
      incremented is absent and reads as zero. */
  datatype Registry = Registry(
    requestsByModel: map<ModelLabels, nat>,
    co2EmissionByUser: map<UserLabels, real>,
    co2EmissionByModel: map<ModelLabels, real>,
    tokenCountByModel: map<ModelLabels, nat>)

  /** The registry at process start: every series empty. */
  const EmptyRegistry := Registry(map[], map[], map[], map[])

  /** The shared secret used when the `AUTH_TOKEN` variable is unset. */
  const DefaultAuthToken := "your-secret-token"

  /** The path of the write endpoint. */
  const RequestPath := "/api/v1/request"

  /** The error raised by the bearer-token dependency. */
  datatype HttpError = HttpError(statusCode: nat, detail: string, wwwAuthenticate: string)

  const Unauthorized := HttpError(401, "Invalid authentication credentials", "Bearer")

  /** The JSON body of a successful write: a status text and the echoed request. */
  datatype Accepted = Accepted(status: string, data: Request)

  /** One step of the service: the registry after the call and the reply sent. */
  datatype Step = Step(registry: Registry, reply: Result<Accepted, HttpError>)

  function ModelKey(data: Request): ModelLabels {
    ModelLabels(data.model, data.org)
  }

  function UserKey(data: Request): UserLabels {
    UserLabels(data.userId, data.org)
  }

  /** Current value of an integer counter child (zero if never created). */
  function Count<K>(m: map<K, nat>, k: K): nat {
    if k in m then m[k] else 0
  }

  /** Current value of a real-valued counter child (zero if never created). */
  function Amount<K>(m: map<K, real>, k: K): real {
    if k in m then m[k] else 0.0
  }

  /** `counter.labels(k).inc(d)` on an integer series. */
  function IncCount<K(!new)>(m: map<K, nat>, k: K, d: nat): (r: map<K, nat>)
    ensures Count(r, k) == Count(m, k) + d
    ensures forall j :: j != k ==> Count(r, j) == Count(m, j)
  {
    m[k := Count(m, k) + d]
  }

  /** `counter.labels(k).inc(d)` on a real-valued series. */
  function IncAmount<K(!new)>(m: map<K, real>, k: K, d: real): (r: map<K, real>)
    ensures Amount(r, k) == Amount(m, k) + d
    ensures forall j :: j != k ==> Amount(r, j) == Amount(m, j)
  {
    m[k := Amount(m, k) + d]
  }

  /** The bearer-token dependency `get_current_user`: it hands back the
      credential when it equals the configured secret and raises 401 otherwise. */
  function Authenticate(authToken: string, credential: string): (r: Result<string, HttpError>)
    ensures r.Success? <==> credential == authToken
    ensures r.Success? ==> r.value == authToken
    ensures r.Failure? ==> r.error.statusCode == 401 && r.error.wwwAuthenticate == "Bearer"
  {
    if credential != authToken then Failure(Unauthorized) else Success(credential)
  }

  /** Every counter of `s'` is at least the same counter of `s`. */
  ghost predicate Grows(s: Registry, s': Registry) {
    && (forall k :: Count(s.requestsByModel, k) <= Count(s'.requestsByModel, k))
    && (forall k :: Amount(s.co2EmissionByUser, k) <= Amount(s'.co2EmissionByUser, k))
    && (forall k :: Amount(s.co2EmissionByModel, k) <= Amount(s'.co2EmissionByModel, k))
    && (forall k :: Count(s.tokenCountByModel, k) <= Count(s'.tokenCountByModel, k))
  }

  /** `POST /api/v1/request`: the authentication dependency runs first; on
      success the four series are incremented at the request's label keys and
      the request is echoed back. An accepted request must carry
      non-negative amounts, because negative increments are refused by the
      counter library; a rejected one never reaches the counters. */
  function ApiRequest(s: Registry, authToken: string, credential: string, data: Request): (r: Step)
    requires credential == authToken ==> data.co2Emission >= 0.0 && data.tokenNb >= 0
    ensures r.reply.Failure? <==> credential != authToken
    ensures r.reply.Failure? ==> r.reply.error == Unauthorized && r.registry == s
    ensures r.reply.Success? ==> r.reply.value == Accepted("request received", data)
    ensures r.reply.Success? ==>
      && Count(r.registry.requestsByModel, ModelKey(data)) == Count(s.requestsByModel, ModelKey(data)) + 1
      && Amount(r.registry.co2EmissionByUser, UserKey(data)) == Amount(s.co2EmissionByUser, UserKey(data)) + data.co2Emission
      && Amount(r.registry.co2EmissionByModel, ModelKey(data)) == Amount(s.co2EmissionByModel, ModelKey(data)) + data.co2Emission
      && Count(r.registry.tokenCountByModel, ModelKey(data)) == Count(s.tokenCountByModel, ModelKey(data)) + data.tokenNb
    ensures forall k :: k != ModelKey(data) ==> Count(r.registry.requestsByModel, k) == Count(s.requestsByModel, k)
    ensures forall k :: k != UserKey(data) ==> Amount(r.registry.co2EmissionByUser, k) == Amount(s.co2EmissionByUser, k)
    ensures forall k :: k != ModelKey(data) ==> Amount(r.registry.co2EmissionByModel, k) == Amount(s.co2EmissionByModel, k)
    ensures forall k :: k != ModelKey(data) ==> Count(r.registry.tokenCountByModel, k) == Count(s.tokenCountByModel, k)
    ensures Grows(s, r.registry)
  {
    match Authenticate(authToken, credential)
    case Failure(e) => Step(s, Failure(e))
    case Success(_) =>
      var s' := Registry(
        IncCount(s.requestsByModel, ModelKey(data), 1),
        IncAmount(s.co2EmissionByUser, UserKey(data), data.co2Emission),
        IncAmount(s.co2EmissionByModel, ModelKey(data), data.co2Emission),
        IncCount(s.tokenCountByModel, ModelKey(data), data.tokenNb));
      Step(s', Success(Accepted("request received", data)))
  }

  /** All amounts of a request log are non-negative. */
  ghost predicate ValidLog(log: seq<Request>) {
    forall i :: 0 <= i < |log| ==> log[i].co2Emission >= 0.0 && log[i].tokenNb >= 0
  }

  /** The registry after posting every request of `log`, in order, with one credential. */
  function Replay(s: Registry, authToken: string, credential: string, log: seq<Request>): Registry
    requires credential == authToken ==> ValidLog(log)
    decreases |log|
  {
    if |log| == 0 then s
    else Replay(ApiRequest(s, authToken, credential, log[0]).registry, authToken, credential, log[1..])
  }

  // Reference totals: what each series should hold for a label key, computed
  // directly from the log without any registry.

  function RequestsFor(log: seq<Request>, k: ModelLabels): nat {
    if |log| == 0 then 0
    else (if ModelKey(log[0]) == k then 1 else 0) + RequestsFor(log[1..], k)
  }

  function UserCo2For(log: seq<Request>, k: UserLabels): real {
    if |log| == 0 then 0.0
    else (if UserKey(log[0]) == k then log[0].co2Emission else 0.0) + UserCo2For(log[1..], k)
  }

  function ModelCo2For(log: seq<Request>, k: ModelLabels): real {
    if |log| == 0 then 0.0
    else (if ModelKey(log[0]) == k then log[0].co2Emission else 0.0) + ModelCo2For(log[1..], k)
  }

  function TokensFor(log: seq<Request>, k: ModelLabels): int {
    if |log| == 0 then 0
    else (if ModelKey(log[0]) == k then log[0].tokenNb else 0) + TokensFor(log[1..], k)
  }

  /** With the right credential, replaying a log adds to every label key
      exactly the reference total of the requests carrying that key: one per
      request for the request count, the summed amounts for the others. */
  lemma {:induction false} ReplayAddsReferenceTotals(s: Registry, authToken: string, log: seq<Request>)
    requires ValidLog(log)
    ensures forall k :: Count(Replay(s, authToken, authToken, log).requestsByModel, k)
                        == Count(s.requestsByModel, k) + RequestsFor(log, k)
    ensures forall k :: Amount(Replay(s, authToken, authToken, log).co2EmissionByUser, k)
                        == Amount(s.co2EmissionByUser, k) + UserCo2For(log, k)
    ensures forall k :: Amount(Replay(s, authToken, authToken, log).co2EmissionByModel, k)
                        == Amount(s.co2EmissionByModel, k) + ModelCo2For(log, k)
    ensures forall k :: Count(Replay(s, authToken, authToken, log).tokenCountByModel, k)
                        == Count(s.tokenCountByModel, k) + TokensFor(log, k)
    decreases |log|
  {
    if |log| > 0 {
      var s1 := ApiRequest(s, authToken, authToken, log[0]).registry;
      assert ValidLog(log[1..]) by {
        forall i | 0 <= i < |log[1..]| ensures log[1..][i].co2Emission >= 0.0 && log[1..][i].tokenNb >= 0 {
          assert log[1..][i] == log[i + 1];
        }
      }
      ReplayAddsReferenceTotals(s1, authToken, log[1..]);
    }
  }

  /** With a wrong credential every request of the log is refused and the
      registry is exactly what it was. */
  lemma {:induction false} ReplayRejectedIsNoOp(s: Registry, authToken: string, credential: string, log: seq<Request>)
    requires credential != authToken
    ensures Replay(s, authToken, credential, log) == s
    decreases |log|
  {
    if |log| > 0 {
      ReplayRejectedIsNoOp(s, authToken, credential, log[1..]);
    }
  }

  /** Counters never decrease, whatever sequence of requests is posted, with
      any credential. */
  lemma {:induction false} ReplayGrows(s: Registry, authToken: string, credential: string, log: seq<Request>)
    requires credential == authToken ==> ValidLog(log)
    ensures Grows(s, Replay(s, authToken, credential, log))
    decreases |log|
  {
    if |log| > 0 {
      var s1 := ApiRequest(s, authToken, credential, log[0]).registry;
      if credential == authToken {
        assert ValidLog(log[1..]) by {
          forall i | 0 <= i < |log[1..]| ensures log[1..][i].co2Emission >= 0.0 && log[1..][i].tokenNb >= 0 {
            assert log[1..][i] == log[i + 1];
          }
        }
      }
      ReplayGrows(s1, authToken, credential, log[1..]);
      var s2 := Replay(s1, authToken, credential, log[1..]);
      assert Grows(s, s1);
      assert Grows(s1, s2);
    }
  }

  /** There is no deduplication: posting the same request twice adds twice
      the single-call deltas. */
  lemma RetryCountsTwice(s: Registry, authToken: string, data: Request)
    requires data.co2Emission >= 0.0 && data.tokenNb >= 0
    ensures var s2 := ApiRequest(ApiRequest(s, authToken, authToken, data).registry, authToken, authToken, data).registry;
      && Count(s2.requestsByModel, ModelKey(data)) == Count(s.requestsByModel, ModelKey(data)) + 2
      && Amount(s2.co2EmissionByUser, UserKey(data)) == Amount(s.co2EmissionByUser, UserKey(data)) + 2.0 * data.co2Emission
      && Amount(s2.co2EmissionByModel, ModelKey(data)) == Amount(s.co2EmissionByModel, ModelKey(data)) + 2.0 * data.co2Emission
      && Count(s2.tokenCountByModel, ModelKey(data)) == Count(s.tokenCountByModel, ModelKey(data)) + 2 * data.tokenNb
  {
  }

  /** The per-model series do not distinguish users: two users' requests for
      the same model and organisation accumulate in one model entry while
      their per-user entries stay apart. */
  lemma UsersShareModelEntry(s: Registry, authToken: string, a: Request, b: Request)
    requires a.co2Emission >= 0.0 && a.tokenNb >= 0 && b.co2Emission >= 0.0 && b.tokenNb >= 0
    requires a.model == b.model && a.org == b.org && a.userId != b.userId
    ensures var s2 := ApiRequest(ApiRequest(s, authToken, authToken, a).registry, authToken, authToken, b).registry;
      && Count(s2.requestsByModel, ModelKey(a)) == Count(s.requestsByModel, ModelKey(a)) + 2
      && Amount(s2.co2EmissionByModel, ModelKey(a)) == Amount(s.co2EmissionByModel, ModelKey(a)) + a.co2Emission + b.co2Emission
      && Amount(s2.co2EmissionByUser, UserKey(a)) == Amount(s.co2EmissionByUser, UserKey(a)) + a.co2Emission
      && Amount(s2.co2EmissionByUser, UserKey(b)) == Amount(s.co2EmissionByUser, UserKey(b)) + b.co2Emission
  {
  }
}
