/** The GitHub API client: the rate-limit check every request goes through,
    the owner-activity summary, and the repository lookup that attaches that
    summary to the repository's owner. The HTTP session itself is a
    `Transport`: one total function per kind of GET request, from the
    request's varying parameters to the response. */
module ApiClient {
  import opened Wrappers
  import opened Dicts
  import opened PyValue
  import opened Decimal
  import opened Counting

  /** A response: status code, headers (kept, as `requests` keeps them, under
      their lower-cased names) and the decoded JSON body (`None` when the body
      is not JSON). */
  datatype Response = Response(status: int, headers: map<string, string>, body: Option<Value>)

  /** `GET /search/repositories?q=&page=`, `GET /repos/{owner}/{repo}` and
      `GET /users/{username}/events` for a window of `days` days. */
  datatype Transport = Transport(
    search: (string, int) -> Response,
    repository: (Value, Value) -> Response,
    events: (Value, int) -> Response)

  /** The `api` settings. `activityLimit` is `None` when the key is absent. */
  datatype ApiConfig = ApiConfig(baseUrl: string, timeout: int, rateLimitPause: int, activityLimit: Option<int>)

  const RemainingHeader := "X-RateLimit-Remaining"
  const ForbiddenStatus := 403
  const DefaultActivityDays := 30
  const RecentEventCount := 10

  function LowerChar(c: char): char {
    if 'A' <= c <= 'Z' then (c as int + 32) as char else c
  }

  /** ASCII lower case, the key under which a header is stored. */
  function Lower(s: string): (t: string)
    ensures |t| == |s|
  {
    seq(|s|, i requires 0 <= i < |s| => LowerChar(s[i]))
  }

  /** The text of the remaining-quota header, as `int()` sees it. */
  function RemainingText(response: Response): string
    requires Lower(RemainingHeader) in response.headers
  {
    StripRight(StripLeft(response.headers[Lower(RemainingHeader)]))
  }

  /** `_handle_rate_limit` with `time.sleep(pause)`: `Ok(true)` when it
      sleeps, `Ok(false)` when it does not, `Err(ValueError)` when `int()`
      rejects the header or the pause it would sleep for is negative. */
  function RateLimitPause(response: Response, pause: int): Result<bool, Error> {
    var key := Lower(RemainingHeader);
    if response.status == ForbiddenStatus && key in response.headers then
      match PyInt(response.headers[key])
      case Some(remaining) =>
        if remaining != 0 then Ok(false)
        else if pause < 0 then Err(ValueError)
        else Ok(true)
      case None => Err(ValueError)
    else Ok(false)
  }

  /** The statuses `raise_for_status` raises for. */
  predicate IsHttpError(status: int) {
    400 <= status < 600
  }

  /** One request's handling: the rate-limit check, then `raise_for_status`,
      then `.json()`. The request is issued once, whatever the check decides. */
  function Exchange(response: Response, pause: int): (r: Result<Value, Error>)
    ensures r.Ok? <==>
              && RateLimitPause(response, pause).Ok?
              && !IsHttpError(response.status)
              && response.body.Some?
    ensures r.Ok? ==> r.value == response.body.value
    ensures RateLimitPause(response, pause).Err? ==> r == Err(ValueError)
    ensures RateLimitPause(response, pause).Ok? && IsHttpError(response.status) ==>
              r == Err(HttpError(response.status))
    ensures RateLimitPause(response, pause).Ok? && !IsHttpError(response.status) && response.body.None? ==>
              r == Err(JsonDecodeError)
    ensures Answers(response, r)
  {
    var paused :- RateLimitPause(response, pause);
    if IsHttpError(response.status) then Err(HttpError(response.status))
    else
      match response.body
      case Some(v) => Ok(v)
      case None => Err(JsonDecodeError)
  }

  /** What a request returns for `response`: a response without an error
      status yields its JSON body, whatever the rate-limit check decided,
      and one with an error status raises that status or, for a 403 with a
      malformed quota header or a negative pause, `ValueError`. */
  predicate Answers(response: Response, r: Result<Value, Error>) {
    && (!IsHttpError(response.status) ==>
          r == (match response.body case Some(v) => Ok(v) case None => Err(JsonDecodeError)))
    && (IsHttpError(response.status) ==>
          r == Err(HttpError(response.status)) || r == Err(ValueError))
  }

  /** The client pauses exactly for a 403 whose remaining-quota header is
      present and reads as zero, provided the pause is not negative. It fails
      with `ValueError` exactly when that header is present on a 403 and is
      not an integer, or reads as zero while the pause is negative. */
  lemma RateLimitPauseExactly(response: Response, pause: int)
    ensures RateLimitPause(response, pause) == Ok(true) <==>
              && response.status == ForbiddenStatus
              && Lower(RemainingHeader) in response.headers
              && IsZeroNumeral(RemainingText(response))
              && pause >= 0
    ensures RateLimitPause(response, pause) == Err(ValueError) <==>
              && response.status == ForbiddenStatus
              && Lower(RemainingHeader) in response.headers
              && (|| ParseInt(RemainingText(response)).None?
                  || (IsZeroNumeral(RemainingText(response)) && pause < 0))
    ensures RateLimitPause(response, pause).Err? ==> RateLimitPause(response, pause) == Err(ValueError)
  {
    if response.status == ForbiddenStatus && Lower(RemainingHeader) in response.headers {
      ParseIntZero(RemainingText(response));
    }
  }

  /** After a pause the same 403 response is raised: nothing is retried. */
  lemma PausedRequestFails(response: Response, pause: int)
    requires RateLimitPause(response, pause) == Ok(true)
    ensures Exchange(response, pause) == Err(HttpError(ForbiddenStatus))
  {
  }

  /** The summary `_summarize_user_activity` builds. */
  datatype ActivitySummary = ActivitySummary(
    totalContributions: nat,
    contributionTypes: seq<(Value, nat)>,
    recentEvents: Value,
    activityDates: seq<Value>)
  {
    /** The summary as the Python dict it is, keys in insertion order. */
    function ToValue(): Value {
      Dict([
        (Str("total_contributions"), Int(totalContributions)),
        (Str("contribution_types"),
          Dict(seq(|contributionTypes|, i requires 0 <= i < |contributionTypes| =>
            (contributionTypes[i].0, Int(contributionTypes[i].1))))),
        (Str("recent_events"), recentEvents),
        (Str("activity_dates"), List(activityDates))
      ])
    }
  }

  /** One loop iteration's reads of an event: `event['type']`, used as a dict
      key, then `event['created_at']`. */
  function ParseEvent(event: Value): (r: Result<(Value, Value), Error>)
    ensures r.Ok? <==>
              && Subscript(event, "type").Ok?
              && Hashable(Subscript(event, "type").value)
              && Subscript(event, "created_at").Ok?
    ensures r.Ok? ==> r.value == (Subscript(event, "type").value, Subscript(event, "created_at").value)
  {
    var eventType :- Subscript(event, "type");
    if !Hashable(eventType) then Err(TypeError)
    else
      var createdAt :- Subscript(event, "created_at");
      Ok((eventType, createdAt))
  }

  /** The events' (type, created_at) pairs, or the first event's exception. */
  function ParseEvents(events: seq<Value>): (r: Result<seq<(Value, Value)>, Error>)
    ensures r.Ok? ==> |r.value| == |events|
  {
    if events == [] then Ok([])
    else
      var init :- ParseEvents(events[..|events| - 1]);
      var last :- ParseEvent(events[|events| - 1]);
      Ok(init + [last])
  }

  function EventTypes(parsed: seq<(Value, Value)>): (ts: seq<Value>)
    ensures |ts| == |parsed|
  {
    seq(|parsed|, i requires 0 <= i < |parsed| => parsed[i].0)
  }

  function EventDates(parsed: seq<(Value, Value)>): (ds: seq<Value>)
    ensures |ds| == |parsed|
  {
    seq(|parsed|, i requires 0 <= i < |parsed| => parsed[i].1)
  }

  /** What `_summarize_user_activity(events)` returns or raises. */
  function Summary(events: seq<Value>): Result<ActivitySummary, Error> {
    var parsed :- ParseEvents(events);
    Ok(ActivitySummary(
      |events|,
      CountByKey(EventTypes(parsed)),
      List(events[..Min(RecentEventCount, |events|)]),
      EventDates(parsed)))
  }

  /** The value of `event['type']` (`Null` where there is none). */
  function TypeOf(event: Value): Value {
    match Subscript(event, "type")
    case Ok(t) => t
    case Err(_) => Null
  }

  function TypesOf(events: seq<Value>): (ts: seq<Value>)
    ensures |ts| == |events|
  {
    seq(|events|, i requires 0 <= i < |events| => TypeOf(events[i]))
  }

  /** Reading one more event extends a successful parse by that event. */
  lemma ParseEventsSnoc(events: seq<Value>, i: nat, parsed: seq<(Value, Value)>)
    requires i < |events|
    requires ParseEvents(events[..i]) == Ok(parsed)
    requires ParseEvent(events[i]).Ok?
    ensures ParseEvents(events[..i + 1]) == Ok(parsed + [ParseEvent(events[i]).value])
  {
    assert events[..i + 1][..i] == events[..i];
  }

  lemma EventsSnoc(parsed: seq<(Value, Value)>, p: (Value, Value))
    ensures EventTypes(parsed + [p]) == EventTypes(parsed) + [p.0]
    ensures EventDates(parsed + [p]) == EventDates(parsed) + [p.1]
  {
  }

  /** A successful parse reads every event, in order. */
  lemma {:induction false} ParseEventsAt(events: seq<Value>)
    requires ParseEvents(events).Ok?
    ensures forall i :: 0 <= i < |events| ==> ParseEvent(events[i]) == Ok(ParseEvents(events).value[i])
  {
    if events != [] {
      var init := events[..|events| - 1];
      ParseEventsAt(init);
      assert forall i :: 0 <= i < |init| ==> init[i] == events[i];
    }
  }

  /** The parse fails exactly when some event cannot be read, and then with
      the exception of the first such event. */
  lemma {:induction false} ParseEventsFailure(events: seq<Value>)
    ensures ParseEvents(events).Err? ==>
              exists i :: 0 <= i < |events| && ParseEvent(events[i]) == Err(ParseEvents(events).error) &&
                forall j :: 0 <= j < i ==> ParseEvent(events[j]).Ok?
    ensures ParseEvents(events).Ok? <==> forall i :: 0 <= i < |events| ==> ParseEvent(events[i]).Ok?
  {
    if events != [] {
      var init := events[..|events| - 1];
      ParseEventsFailure(init);
      assert forall i :: 0 <= i < |init| ==> init[i] == events[i];
      if ParseEvents(init).Ok? {
        ParseEventsAt(init);
      }
    }
  }

  /** The summary of an empty JSON string: it has no events, and its first
      ten "events" are the string's empty slice. */
  const EmptyTextSummary := ActivitySummary(0, [], Str(""), [])

  /** `total_contributions` is the number of events, `recent_events` their
      first ten, `activity_dates` every event's `created_at` in order. */
  lemma SummaryShape(events: seq<Value>)
    requires Summary(events).Ok?
    ensures var s := Summary(events).value;
            && s.totalContributions == |events|
            && s.recentEvents == List(events[..Min(RecentEventCount, |events|)])
            && |s.activityDates| == |events|
            && forall i :: 0 <= i < |events| ==> Subscript(events[i], "created_at") == Ok(s.activityDates[i])
  {
    ParseEventsAt(events);
  }

  /** `contribution_types` maps each event type to the number of events of
      that type, holds no other key and no key twice, and its counts add up
      to the number of events. */
  lemma SummaryCounts(events: seq<Value>)
    requires Summary(events).Ok?
    ensures forall i :: 0 <= i < |events| ==> Subscript(events[i], "type") == Ok(TypesOf(events)[i])
    ensures var counts := Summary(events).value.contributionTypes;
            && (forall k :: Find(counts, k) == if k in TypesOf(events) then Some(multiset(TypesOf(events))[k]) else None)
            && Distinct(Keys(counts))
            && (forall k :: k in Keys(counts) <==> k in TypesOf(events))
            && Total(counts) == |events|
  {
    var parsed := ParseEvents(events).value;
    ParseEventsAt(events);
    assert EventTypes(parsed) == TypesOf(events);
    forall k {
      CountByKeyCount(TypesOf(events), k);
    }
    CountByKeyKeys(TypesOf(events));
    CountByKeyTotal(TypesOf(events));
  }

  /** The summary fails exactly when an event cannot be read, with the
      exception the first such event raises. */
  lemma SummaryFailure(events: seq<Value>)
    ensures Summary(events).Err? <==> exists i :: 0 <= i < |events| && ParseEvent(events[i]).Err?
    ensures Summary(events).Err? ==>
              exists i :: 0 <= i < |events| && ParseEvent(events[i]) == Err(Summary(events).error) &&
                forall j :: 0 <= j < i ==> ParseEvent(events[j]).Ok?
  {
    ParseEventsFailure(events);
  }

  class GitHubAPIClient {
    const token: string
    const config: ApiConfig
    const transport: Transport

    constructor(token: string, config: ApiConfig, transport: Transport)
      ensures this.token == token && this.config == config && this.transport == transport
    {
      this.token := token;
      this.config := config;
      this.transport := transport;
    }

    /** `search_repositories(query, page)`. */
    function SearchRepositories(query: string, page: int): (r: Result<Value, Error>)
      ensures Answers(transport.search(query, page), r)
    {
      Exchange(transport.search(query, page), config.rateLimitPause)
    }

    /** `_get_repo_data(owner, repo)`. */
    function RepoData(owner: Value, repo: Value): (r: Result<Value, Error>)
      ensures Answers(transport.repository(owner, repo), r)
    {
      Exchange(transport.repository(owner, repo), config.rateLimitPause)
    }

    /** What `get_user_contributions(username, days)` returns or raises. */
    function Contributions(username: Value, days: int): Result<Value, Error> {
      var events :- Exchange(transport.events(username, days), config.rateLimitPause);
      match events
      case List(items) =>
        var summary :- Summary(items);
        Ok(summary.ToValue())
      case Str(text) =>
        if text == "" then Ok(EmptyTextSummary.ToValue()) else Err(TypeError)
      case _ => Err(TypeError)
    }

    /** What `get_repository(owner, repo)` returns or raises. */
    function RepositoryRecord(owner: Value, repo: Value): Result<Value, Error> {
      var data :- RepoData(owner, repo);
      var hasOwner :- Contains(data, "owner");
      if !hasOwner then Ok(data)
      else
        var ownerData :- Subscript(data, "owner");
        var login :- Subscript(ownerData, "login");
        var contributions :- Contributions(login, config.activityLimit.GetOr(DefaultActivityDays));
        var enriched := SetItem(ownerData, "recent_activity", contributions).value;
        SetItem(data, "owner", enriched)
    }

    /** `_summarize_user_activity`: one pass over the events, counting types
        and collecting dates. */
    method SummarizeUserActivity(events: seq<Value>) returns (r: Result<ActivitySummary, Error>)
      ensures r == Summary(events)
    {
      var total := |events|;
      var recent := events[..Min(RecentEventCount, |events|)];
      var counts: seq<(Value, nat)> := [];
      var dates: seq<Value> := [];
      ghost var parsed: seq<(Value, Value)> := [];
      for i := 0 to |events|
        invariant ParseEvents(events[..i]) == Ok(parsed)
        invariant counts == CountByKey(EventTypes(parsed))
        invariant dates == EventDates(parsed)
      {
        var event := events[i];
        var eventType := Subscript(event, "type");
        if eventType.Err? || !Hashable(eventType.value) {
          r := Err(if eventType.Err? then eventType.error else TypeError);
          PrefixFailure(events, i + 1);
          return;
        }
        counts := Increment(counts, eventType.value);
        var createdAt := Subscript(event, "created_at");
        if createdAt.Err? {
          r := Err(createdAt.error);
          PrefixFailure(events, i + 1);
          return;
        }
        dates := dates + [createdAt.value];
        ghost var p := (eventType.value, createdAt.value);
        ParseEventsSnoc(events, i, parsed);
        EventsSnoc(parsed, p);
        CountByKeySnoc(EventTypes(parsed), p.0);
        parsed := parsed + [p];
      }
      assert events[..|events|] == events;
      r := Ok(ActivitySummary(total, counts, List(recent), dates));
    }

    /** `get_user_contributions(username, days)`. */
    method GetUserContributions(username: Value, days: int) returns (r: Result<Value, Error>)
      ensures r == Contributions(username, days)
    {
      var events :- Exchange(transport.events(username, days), config.rateLimitPause);
      if events == Str("") {
        return Ok(EmptyTextSummary.ToValue());
      }
      if !events.List? {
        return Err(TypeError);
      }
      var summary :- SummarizeUserActivity(events.items);
      r := Ok(summary.ToValue());
    }

    /** `get_repository(owner, repo)`: the fetched record, with the owner's
        recent activity attached when the record has an owner. */
    method GetRepository(owner: Value, repo: Value) returns (r: Result<Value, Error>)
      ensures r == RepositoryRecord(owner, repo)
    {
      var repoData :- RepoData(owner, repo);
      var hasOwner :- Contains(repoData, "owner");
      if hasOwner {
        var ownerData :- Subscript(repoData, "owner");
        var login :- Subscript(ownerData, "login");
        var contributions :- GetUserContributions(login, config.activityLimit.GetOr(DefaultActivityDays));
        var enriched := SetItem(ownerData, "recent_activity", contributions);
        r := SetItem(repoData, "owner", enriched.value);
        return;
      }
      r := Ok(repoData);
    }
  }

  /** A prefix whose last event cannot be read makes the whole parse fail
      with that event's exception. */
  lemma {:induction false} PrefixFailure(events: seq<Value>, n: nat)
    requires 0 < n <= |events|
    requires ParseEvents(events[..n - 1]).Ok?
    requires ParseEvent(events[n - 1]).Err?
    ensures ParseEvents(events) == Err(ParseEvent(events[n - 1]).error)
    decreases |events|
  {
    var init := events[..|events| - 1];
    assert events[..n][..n - 1] == events[..n - 1];
    if n < |events| {
      assert init[..n - 1] == events[..n - 1];
      assert init[n - 1] == events[n - 1];
      PrefixFailure(init, n);
    } else {
      assert init == events[..n - 1];
    }
  }

  /** `get_repository` changes nothing in the fetched record but
      `owner.recent_activity`, and that only when the record has an owner; the
      activity covers `activity_limit` days, 30 when the setting is absent. */
  lemma RepositoryRecordOnlySetsRecentActivity(client: GitHubAPIClient, owner: Value, repo: Value)
    requires client.RepositoryRecord(owner, repo).Ok?
    ensures client.RepoData(owner, repo).Ok?
    ensures Contains(client.RepoData(owner, repo).value, "owner").Ok?
    ensures var data := client.RepoData(owner, repo).value;
            var record := client.RepositoryRecord(owner, repo).value;
            Contains(data, "owner") == Ok(false) ==> record == data
    ensures var data := client.RepoData(owner, repo).value;
            var record := client.RepositoryRecord(owner, repo).value;
            Contains(data, "owner") == Ok(true) ==>
              && Subscript(data, "owner").Ok?
              && Subscript(record, "owner").Ok?
              && SetOnly(data, record, "owner", Subscript(record, "owner").value)
              && var before := Subscript(data, "owner").value;
                 && Subscript(before, "login").Ok?
                 && var days := client.config.activityLimit.GetOr(DefaultActivityDays);
                    && client.Contributions(Subscript(before, "login").value, days).Ok?
                    && SetOnly(before, Subscript(record, "owner").value, "recent_activity",
                               client.Contributions(Subscript(before, "login").value, days).value)
  {
    var data := client.RepoData(owner, repo).value;
    if Contains(data, "owner") == Ok(true) {
      var before := Subscript(data, "owner").value;
      var login := Subscript(before, "login").value;
      var contributions := client.Contributions(login, client.config.activityLimit.GetOr(DefaultActivityDays)).value;
      var enriched := SetItem(before, "recent_activity", contributions).value;
      SetItemSetsOnly(before, "recent_activity", contributions);
      SetItemSetsOnly(data, "owner", enriched);
    }
  }

  /** The keys of the summary dict, in insertion order. */
  const SummaryKeys: seq<Value> :=
    [Str("total_contributions"), Str("contribution_types"), Str("recent_events"), Str("activity_dates")]

  /** The summary dict holds the four summary keys in order, with the event
      count under `total_contributions` and the recent events under
      `recent_events`. */
  lemma SummaryValue(s: ActivitySummary)
    ensures s.ToValue().Dict? && Keys(s.ToValue().entries) == SummaryKeys
    ensures Subscript(s.ToValue(), "total_contributions") == Ok(Int(s.totalContributions))
    ensures Subscript(s.ToValue(), "recent_events") == Ok(s.recentEvents)
  {
    var d := s.ToValue().entries;
    assert d[1..][1..][1..][1..] == [];
    assert Keys(d[1..][1..][1..]) == [Str("activity_dates")];
    assert Keys(d[1..][1..]) == [Str("recent_events"), Str("activity_dates")];
    assert Keys(d[1..]) == SummaryKeys[1..];
    assert Find(d[1..][1..], Str("recent_events")) == Some(s.recentEvents);
    assert Find(d[1..], Str("recent_events")) == Some(s.recentEvents);
  }

  /** `get_user_contributions` raises what the request raises; otherwise it
      summarizes a list body, treats an empty string body as no events, and
      raises `TypeError` for any other body. Every summary it returns is a
      dict with the four summary keys in order. */
  lemma ContributionsCases(client: GitHubAPIClient, username: Value, days: int)
    ensures var body := Exchange(client.transport.events(username, days), client.config.rateLimitPause);
            body.Err? ==> client.Contributions(username, days) == Err(body.error)
    ensures var body := Exchange(client.transport.events(username, days), client.config.rateLimitPause);
            var r := client.Contributions(username, days);
            r.Ok? ==> && body.Ok? && (body.value.List? || body.value == Str(""))
                      && r.value.Dict? && Keys(r.value.entries) == SummaryKeys
    ensures var body := Exchange(client.transport.events(username, days), client.config.rateLimitPause);
            var r := client.Contributions(username, days);
            body.Ok? && body.value.List? ==>
              && (r.Ok? <==> Summary(body.value.items).Ok?)
              && (r.Err? ==> r == Err(Summary(body.value.items).error))
              && (r.Ok? ==>
                    && Subscript(r.value, "total_contributions") == Ok(Int(|body.value.items|))
                    && Subscript(r.value, "recent_events") ==
                         Ok(List(body.value.items[..Min(RecentEventCount, |body.value.items|)])))
    ensures var body := Exchange(client.transport.events(username, days), client.config.rateLimitPause);
            var r := client.Contributions(username, days);
            body == Ok(Str("")) ==>
              && r.Ok?
              && Subscript(r.value, "total_contributions") == Ok(Int(0))
              && Subscript(r.value, "recent_events") == Ok(Str(""))
    ensures var body := Exchange(client.transport.events(username, days), client.config.rateLimitPause);
            body.Ok? && !body.value.List? && body.value != Str("") ==>
              client.Contributions(username, days) == Err(TypeError)
  {
    var body := Exchange(client.transport.events(username, days), client.config.rateLimitPause);
    if body.Ok? && body.value.List? && Summary(body.value.items).Ok? {
      SummaryShape(body.value.items);
      SummaryValue(Summary(body.value.items).value);
    } else if body == Ok(Str("")) {
      SummaryValue(EmptyTextSummary);
    }
  }
}
