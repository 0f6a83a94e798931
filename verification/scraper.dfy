/** The scraper: the search query built from a topic and the optional star
    range, and the collection loop that pages through each topic's search
    results and appends one detailed record per hit to `results`, never
    beyond `max_repos`. */
module Scraper {
  import opened Wrappers
  import opened Dicts
  import opened PyValue
  import opened Decimal
  import opened ApiClient

  /** `stars.min` and `stars.max`; `None` where the key is absent. */
  datatype StarSettings = StarSettings(min: Option<int>, max: Option<int>)

  /** The `scraper` settings: `topics`, `max_repos` and the optional `stars`
      table (`None` when the key is absent). No other key is read. */
  datatype ScraperConfig = ScraperConfig(topics: seq<string>, maxRepos: int, stars: Option<StarSettings>)

  const NoStars := StarSettings(None, None)
  const TopicQualifier := "topic:"
  const StarsQualifier := " stars:"

  /** `config.get('stars', {})`, read as bounds. */
  function Stars(config: ScraperConfig): StarSettings {
    config.stars.GetOr(NoStars)
  }

  /** The star qualifier appended to the topic qualifier, if any. */
  function StarsSuffix(stars: StarSettings): string {
    match stars
    case StarSettings(Some(lo), Some(hi)) => StarsQualifier + IntToString(lo) + ".." + IntToString(hi)
    case StarSettings(Some(lo), None) => StarsQualifier + ">=" + IntToString(lo)
    case StarSettings(None, Some(hi)) => StarsQualifier + "<=" + IntToString(hi)
    case StarSettings(None, None) => ""
  }

  /** `_create_search_query(topic)`. */
  function SearchQuery(config: ScraperConfig, topic: string): (q: string)
    ensures IsPrefix(TopicQualifier + topic, q)
  {
    TopicQualifier + topic + StarsSuffix(Stars(config))
  }

  /** The position of the first `c` in `s`, or `|s|`. */
  function IndexOf(s: string, c: char): (i: nat)
    ensures i <= |s| && (i < |s| ==> s[i] == c)
    ensures forall j :: 0 <= j < i ==> s[j] != c
  {
    if s == [] || s[0] == c then 0 else 1 + IndexOf(s[1..], c)
  }

  /** Reads a star qualifier's value back: `>=lo`, `<=hi` or `lo..hi`. */
  function ParseStars(b: string): Option<StarSettings> {
    if IsPrefix(">=", b) then
      match ParseInt(b[2..])
      case Some(lo) => Some(StarSettings(Some(lo), None))
      case None => None
    else if IsPrefix("<=", b) then
      match ParseInt(b[2..])
      case Some(hi) => Some(StarSettings(None, Some(hi)))
      case None => None
    else
      var j := IndexOf(b, '.');
      if j + 1 < |b| && b[j + 1] == '.' then
        match (ParseInt(b[..j]), ParseInt(b[j + 2..]))
        case (Some(lo), Some(hi)) => Some(StarSettings(Some(lo), Some(hi)))
        case _ => None
      else None
  }

  /** Reads a query back into its topic and star range: the inverse of
      `SearchQuery` for topics without spaces. */
  function ParseQuery(q: string): Option<(string, StarSettings)> {
    if !IsPrefix(TopicQualifier, q) then None
    else
      var rest := q[|TopicQualifier|..];
      var i := IndexOf(rest, ' ');
      var topic, tail := rest[..i], rest[i..];
      if tail == [] then Some((topic, NoStars))
      else if IsPrefix(StarsQualifier, tail) then
        match ParseStars(tail[|StarsQualifier|..])
        case Some(stars) => Some((topic, stars))
        case None => None
      else None
  }

  lemma {:induction false} IndexOfConcat(a: string, b: string, c: char)
    requires forall k :: 0 <= k < |a| ==> a[k] != c
    requires b == [] || b[0] == c
    ensures IndexOf(a + b, c) == |a|
  {
    if a != [] {
      assert (a + b)[1..] == a[1..] + b;
      IndexOfConcat(a[1..], b, c);
    }
  }

  /** `lo..hi` reads back as both bounds. */
  lemma ParseStarsRange(lo: int, hi: int)
    ensures ParseStars(IntToString(lo) + ".." + IntToString(hi)) == Some(StarSettings(Some(lo), Some(hi)))
  {
    var l, h := IntToString(lo), IntToString(hi);
    var b := l + ".." + h;
    assert b[0] == l[0];
    assert !IsPrefix(">=", b) && !IsPrefix("<=", b);
    assert b == l + (".." + h);
    IndexOfConcat(l, ".." + h, '.');
    assert b[|l| + 1] == '.';
    assert b[..|l|] == l && b[|l| + 2..] == h;
    ParseIntToString(lo);
    ParseIntToString(hi);
  }

  /** `>=lo` reads back as a lower bound only. */
  lemma ParseStarsAtLeast(lo: int)
    ensures ParseStars(">=" + IntToString(lo)) == Some(StarSettings(Some(lo), None))
  {
    var b := ">=" + IntToString(lo);
    assert IsPrefix(">=", b) && b[2..] == IntToString(lo);
    ParseIntToString(lo);
  }

  /** `<=hi` reads back as an upper bound only. */
  lemma ParseStarsAtMost(hi: int)
    ensures ParseStars("<=" + IntToString(hi)) == Some(StarSettings(None, Some(hi)))
  {
    var b := "<=" + IntToString(hi);
    assert !IsPrefix(">=", b) && IsPrefix("<=", b) && b[2..] == IntToString(hi);
    ParseIntToString(hi);
  }

  /** Every star range is read back from its qualifier. */
  lemma ParseStarsSuffix(stars: StarSettings)
    requires stars != NoStars
    ensures IsPrefix(StarsQualifier, StarsSuffix(stars))
    ensures ParseStars(StarsSuffix(stars)[|StarsQualifier|..]) == Some(stars)
  {
    var suffix := StarsSuffix(stars);
    match stars
    case StarSettings(Some(lo), Some(hi)) =>
      assert suffix[|StarsQualifier|..] == IntToString(lo) + ".." + IntToString(hi);
      ParseStarsRange(lo, hi);
    case StarSettings(Some(lo), None) =>
      assert suffix[|StarsQualifier|..] == ">=" + IntToString(lo);
      ParseStarsAtLeast(lo);
    case StarSettings(None, Some(hi)) =>
      assert suffix[|StarsQualifier|..] == "<=" + IntToString(hi);
      ParseStarsAtMost(hi);
  }

  /** A query splits at its first space into the topic and the star
      qualifier, provided the topic has no space. */
  lemma ParseQuerySplit(topic: string, suffix: string)
    requires forall k :: 0 <= k < |topic| ==> topic[k] != ' '
    requires suffix == [] || suffix[0] == ' '
    ensures ParseQuery(TopicQualifier + topic + suffix) ==
              if suffix == [] then Some((topic, NoStars))
              else if IsPrefix(StarsQualifier, suffix) then
                match ParseStars(suffix[|StarsQualifier|..])
                case Some(stars) => Some((topic, stars))
                case None => None
              else None
  {
    var q := TopicQualifier + topic + suffix;
    var rest := q[|TopicQualifier|..];
    assert rest == topic + suffix;
    IndexOfConcat(topic, suffix, ' ');
    assert rest[..|topic|] == topic && rest[|topic|..] == suffix;
  }

  /** The query states the topic and the star range unambiguously: reading
      it back gives exactly the settings it was built from (a missing `stars`
      key reads back as no bounds). */
  lemma QueryRoundTrip(config: ScraperConfig, topic: string)
    requires forall k :: 0 <= k < |topic| ==> topic[k] != ' '
    ensures ParseQuery(SearchQuery(config, topic)) == Some((topic, Stars(config)))
  {
    var stars := Stars(config);
    var suffix := StarsSuffix(stars);
    if stars != NoStars {
      ParseStarsSuffix(stars);
      assert suffix[0] == StarsQualifier[0];
    }
    ParseQuerySplit(topic, suffix);
  }

  /** The configuration of tests/test_scraper.py sets `min_stars`, a key the
      query builder never reads, so its query carries no star qualifier. */
  lemma TestConfigurationQuery()
    ensures SearchQuery(ScraperConfig(["python"], 2, None), "python") == "topic:python"
    ensures SearchQuery(ScraperConfig(["python"], 2, None), "python") != "topic:python stars:>=100"
  {
  }

  /** The state of a collection run: the results so far and the exception
      that ended it, if one did. */
  datatype Run = Run(results: seq<Value>, error: Option<Error>)

  /** One topic's search results, page number to the hits on that page. */
  type PageSource = int -> Result<seq<Value>, Error>

  /** A hit to its detailed record. */
  type DetailSource = Value -> Result<Value, Error>

  /** `get_repository(repo['owner']['login'], repo['name'])` for one hit. */
  function HitDetail(client: GitHubAPIClient, hit: Value): (r: Result<Value, Error>)
    ensures !hit.Dict? ==> r == Err(TypeError)
    ensures Subscript(hit, "owner").Err? ==> r == Err(Subscript(hit, "owner").error)
    ensures Subscript(hit, "owner").Ok? && Subscript(Subscript(hit, "owner").value, "login").Err? ==>
              r == Err(Subscript(Subscript(hit, "owner").value, "login").error)
    ensures Subscript(hit, "owner").Ok? && Subscript(Subscript(hit, "owner").value, "login").Ok? &&
            Subscript(hit, "name").Err? ==>
              r == Err(Subscript(hit, "name").error)
    ensures Subscript(hit, "owner").Ok? && Subscript(Subscript(hit, "owner").value, "login").Ok? &&
            Subscript(hit, "name").Ok? ==>
              r == client.RepositoryRecord(Subscript(Subscript(hit, "owner").value, "login").value,
                                           Subscript(hit, "name").value)
    ensures r.Ok? ==>
              && Subscript(hit, "owner").Ok?
              && Subscript(Subscript(hit, "owner").value, "login").Ok?
              && Subscript(hit, "name").Ok?
  {
    var owner :- Subscript(hit, "owner");
    var login :- Subscript(owner, "login");
    var name :- Subscript(hit, "name");
    client.RepositoryRecord(login, name)
  }

  /** The hits on one page of search results, `[]` when `items` is falsy. */
  function PageHits(client: GitHubAPIClient, query: string, page: int): Result<seq<Value>, Error> {
    var response :- client.SearchRepositories(query, page);
    var items :- Subscript(response, "items");
    if !Truthy(items) then Ok([]) else Iterate(items)
  }

  /** A page comes back empty exactly when its `items` is falsy. */
  lemma PageHitsEmpty(client: GitHubAPIClient, query: string, page: int)
    ensures PageHits(client, query, page) == Ok([]) <==>
              && client.SearchRepositories(query, page).Ok?
              && Subscript(client.SearchRepositories(query, page).value, "items").Ok?
              && !Truthy(Subscript(client.SearchRepositories(query, page).value, "items").value)
  {
  }

  function SearchPages(client: GitHubAPIClient, query: string): PageSource {
    page => PageHits(client, query, page)
  }

  function DetailOf(client: GitHubAPIClient): DetailSource {
    hit => HitDetail(client, hit)
  }

  /** The inner loop over one page's hits: it stops once `maxRepos` records
      are held, or at the first hit whose details cannot be fetched. */
  function PageRun(detail: DetailSource, maxRepos: int, hits: seq<Value>, acc: seq<Value>): (run: Run)
    ensures |acc| <= |run.results| && run.results[..|acc|] == acc
    ensures |run.results| > |acc| ==> |run.results| <= maxRepos
    ensures run.error.None? && hits != [] && |acc| < maxRepos ==> |run.results| > |acc|
    decreases |hits|
  {
    if hits == [] || |acc| >= maxRepos then Run(acc, None)
    else
      match detail(hits[0])
      case Err(e) => Run(acc, Some(e))
      case Ok(record) => PageRun(detail, maxRepos, hits[1..], acc + [record])
  }

  /** The `while` loop over one topic's pages from `page` on: it ends when
      `maxRepos` records are held, on an empty page, or on an exception. */
  function TopicRun(pages: PageSource, detail: DetailSource, maxRepos: int, page: int, acc: seq<Value>): (run: Run)
    ensures |acc| <= |run.results| && run.results[..|acc|] == acc
    ensures |run.results| > |acc| ==> |run.results| <= maxRepos
    decreases Max(0, maxRepos - |acc|)
  {
    if |acc| >= maxRepos then Run(acc, None)
    else
      match pages(page)
      case Err(e) => Run(acc, Some(e))
      case Ok(hits) =>
        if hits == [] then Run(acc, None)
        else
          var run := PageRun(detail, maxRepos, hits, acc);
          if run.error.Some? then run
          else
            var next := TopicRun(pages, detail, maxRepos, page + 1, run.results);
            assert next.results[..|acc|] == run.results[..|acc|];
            next
  }

  /** Each topic's pages, searched with the topic's query. */
  function TopicPages(client: GitHubAPIClient, config: ScraperConfig): string -> PageSource {
    topic => SearchPages(client, SearchQuery(config, topic))
  }

  /** The `for` loop over the topics, each paged from page 1. */
  function TopicsRun(pagesOf: string -> PageSource, detail: DetailSource, maxRepos: int, topics: seq<string>, acc: seq<Value>): (run: Run)
    ensures |acc| <= |run.results| && run.results[..|acc|] == acc
    ensures |run.results| > |acc| ==> |run.results| <= maxRepos
  {
    if topics == [] then Run(acc, None)
    else
      var run := TopicRun(pagesOf(topics[0]), detail, maxRepos, 1, acc);
      if run.error.Some? then run
      else
        var next := TopicsRun(pagesOf, detail, maxRepos, topics[1..], run.results);
        assert next.results[..|acc|] == run.results[..|acc|];
        next
  }

  /** One page appends the records of its first hits in order, as many as
      fit under `maxRepos`; an exception stops it at the hit that raised it. */
  lemma {:induction false} PageRunInOrder(detail: DetailSource, maxRepos: int, hits: seq<Value>, acc: seq<Value>)
    ensures var run := PageRun(detail, maxRepos, hits, acc);
            var n := |run.results| - |acc|;
            && n <= |hits|
            && (forall j :: 0 <= j < n ==> detail(hits[j]) == Ok(run.results[|acc| + j]))
            && (run.error.Some? ==> n < |hits| && |run.results| < maxRepos && detail(hits[n]) == Err(run.error.value))
            && (run.error.None? ==> n == Min(|hits|, Max(0, maxRepos - |acc|)))
    decreases |hits|
  {
    var run := PageRun(detail, maxRepos, hits, acc);
    if hits != [] && |acc| < maxRepos && detail(hits[0]).Ok? {
      var record := detail(hits[0]).value;
      var acc' := acc + [record];
      PageRunInOrder(detail, maxRepos, hits[1..], acc');
      assert run == PageRun(detail, maxRepos, hits[1..], acc');
      assert run.results[..|acc'|] == acc';
      var n := |run.results| - |acc|;
      forall j | 0 <= j < n
        ensures detail(hits[j]) == Ok(run.results[|acc| + j])
      {
        if j == 0 {
          assert run.results[|acc|] == acc'[|acc|];
        } else {
          assert hits[j] == hits[1..][j - 1];
          assert |acc'| + (j - 1) == |acc| + j;
          assert detail(hits[1..][j - 1]) == Ok(run.results[|acc'| + (j - 1)]);
        }
      }
      if run.error.Some? {
        assert hits[n] == hits[1..][n - 1];
      }
    }
  }

  /** Topics are processed in order: running `ts1 + ts2` is running `ts1`,
      then, unless it raised, `ts2` on what `ts1` collected. */
  lemma {:induction false} TopicsRunAppend(pagesOf: string -> PageSource, detail: DetailSource, maxRepos: int,
                                           ts1: seq<string>, ts2: seq<string>, acc: seq<Value>)
    ensures TopicsRun(pagesOf, detail, maxRepos, ts1 + ts2, acc) ==
              var first := TopicsRun(pagesOf, detail, maxRepos, ts1, acc);
              if first.error.Some? then first else TopicsRun(pagesOf, detail, maxRepos, ts2, first.results)
  {
    if ts1 != [] {
      assert (ts1 + ts2)[0] == ts1[0];
      assert (ts1 + ts2)[1..] == ts1[1..] + ts2;
      var run := TopicRun(pagesOf(ts1[0]), detail, maxRepos, 1, acc);
      if run.error.None? {
        TopicsRunAppend(pagesOf, detail, maxRepos, ts1[1..], ts2, run.results);
      }
    } else {
      assert ts1 + ts2 == ts2;
    }
  }

  /** An empty page ends a topic: nothing more is searched or appended. */
  lemma EmptyPageEndsTopic(pages: PageSource, detail: DetailSource, maxRepos: int, page: int, acc: seq<Value>)
    requires pages(page) == Ok([])
    ensures TopicRun(pages, detail, maxRepos, page, acc) == Run(acc, None)
  {
  }

  /** `v` is the record of one of the hits on page `page`. */
  ghost predicate FoundOnPage(pages: PageSource, detail: DetailSource, page: int, v: Value) {
    && pages(page).Ok?
    && exists j :: 0 <= j < |pages(page).value| && detail(pages(page).value[j]) == Ok(v)
  }

  /** `v` is the record of a hit on page `first` or a later one. */
  ghost predicate FoundFrom(pages: PageSource, detail: DetailSource, first: int, v: Value) {
    exists p :: first <= p && FoundOnPage(pages, detail, p, v)
  }

  /** `v` is the record of a hit on some page of one of `topics`. */
  ghost predicate FoundForTopics(pagesOf: string -> PageSource, detail: DetailSource, topics: seq<string>, v: Value) {
    exists k :: 0 <= k < |topics| && FoundFrom(pagesOf(topics[k]), detail, 1, v)
  }

  /** Every record a topic's loop appends is the record of a hit on one of
      the pages it visited. */
  lemma {:induction false} TopicRunProvenance(pages: PageSource, detail: DetailSource, maxRepos: int, page: int,
                                              acc: seq<Value>, i: int)
    requires |acc| <= i < |TopicRun(pages, detail, maxRepos, page, acc).results|
    ensures FoundFrom(pages, detail, page, TopicRun(pages, detail, maxRepos, page, acc).results[i])
    decreases Max(0, maxRepos - |acc|)
  {
    var run := TopicRun(pages, detail, maxRepos, page, acc);
    var hits := pages(page).value;
    var pageRun := PageRun(detail, maxRepos, hits, acc);
    PageRunInOrder(detail, maxRepos, hits, acc);
    if i < |pageRun.results| {
      assert run.results[..|pageRun.results|] == pageRun.results;
      assert detail(hits[i - |acc|]) == Ok(run.results[i]);
      assert FoundOnPage(pages, detail, page, run.results[i]);
    } else {
      TopicRunProvenance(pages, detail, maxRepos, page + 1, pageRun.results, i);
      var p :| page + 1 <= p && FoundOnPage(pages, detail, p, run.results[i]);
    }
  }

  /** Nothing enters `results` but the record of a hit on some page of one
      of the topics. */
  lemma {:induction false} TopicsRunProvenance(pagesOf: string -> PageSource, detail: DetailSource, maxRepos: int,
                                               topics: seq<string>, acc: seq<Value>, i: int)
    requires |acc| <= i < |TopicsRun(pagesOf, detail, maxRepos, topics, acc).results|
    ensures FoundForTopics(pagesOf, detail, topics, TopicsRun(pagesOf, detail, maxRepos, topics, acc).results[i])
  {
    var run := TopicsRun(pagesOf, detail, maxRepos, topics, acc);
    var first := TopicRun(pagesOf(topics[0]), detail, maxRepos, 1, acc);
    if i < |first.results| {
      assert run.results[..|first.results|] == first.results;
      TopicRunProvenance(pagesOf(topics[0]), detail, maxRepos, 1, acc, i);
      assert FoundFrom(pagesOf(topics[0]), detail, 1, run.results[i]);
    } else {
      TopicsRunProvenance(pagesOf, detail, maxRepos, topics[1..], first.results, i);
      var k :| 0 <= k < |topics[1..]| && FoundFrom(pagesOf(topics[1..][k]), detail, 1, run.results[i]);
      assert FoundFrom(pagesOf(topics[k + 1]), detail, 1, run.results[i]);
    }
  }

  /** A topic's pages are the search results of its query. */
  lemma TopicPagesAt(client: GitHubAPIClient, config: ScraperConfig, topic: string)
    ensures TopicPages(client, config)(topic) == SearchPages(client, SearchQuery(config, topic))
  {
  }

  /** `TopicRun` at a page, while there is room, unfolded once. */
  lemma TopicRunStep(pages: PageSource, detail: DetailSource, maxRepos: int, page: int, acc: seq<Value>)
    requires |acc| < maxRepos
    ensures TopicRun(pages, detail, maxRepos, page, acc) ==
              match pages(page)
              case Err(e) => Run(acc, Some(e))
              case Ok(hits) =>
                if hits == [] then Run(acc, None)
                else
                  var run := PageRun(detail, maxRepos, hits, acc);
                  if run.error.Some? then run
                  else TopicRun(pages, detail, maxRepos, page + 1, run.results)
  {
  }

  /** `TopicsRun` over the topics from the `t`-th on, unfolded once. */
  lemma TopicsRunStep(pagesOf: string -> PageSource, detail: DetailSource, maxRepos: int,
                      topics: seq<string>, t: int, acc: seq<Value>)
    requires 0 <= t < |topics|
    ensures var run := TopicRun(pagesOf(topics[t]), detail, maxRepos, 1, acc);
            TopicsRun(pagesOf, detail, maxRepos, topics[t..], acc) ==
              if run.error.Some? then run else TopicsRun(pagesOf, detail, maxRepos, topics[t + 1..], run.results)
  {
    assert topics[t..][0] == topics[t] && topics[t..][1..] == topics[t + 1..];
  }

  /** Past the last topic nothing more is collected. */
  lemma TopicsRunDone(pagesOf: string -> PageSource, detail: DetailSource, maxRepos: int,
                      topics: seq<string>, acc: seq<Value>)
    ensures TopicsRun(pagesOf, detail, maxRepos, topics[|topics|..], acc) == Run(acc, None)
  {
    assert topics[|topics|..] == [];
  }

  class GitHubScraper {
    const client: GitHubAPIClient
    const config: ScraperConfig
    var results: seq<Value>

    constructor(client: GitHubAPIClient, config: ScraperConfig)
      ensures this.client == client && this.config == config && results == []
    {
      this.client := client;
      this.config := config;
      results := [];
    }

    /** `scrape_repositories()`: appends to `results` and returns it, or
        raises the first exception, keeping what was appended before it. */
    method ScrapeRepositories() returns (r: Result<seq<Value>, Error>)
      modifies this
      ensures var run := TopicsRun(TopicPages(client, config), DetailOf(client), config.maxRepos, config.topics, old(results));
              && results == run.results
              && r == (if run.error.Some? then Err(run.error.value) else Ok(results))
      ensures |results| >= |old(results)| && results[..|old(results)|] == old(results)
      ensures |old(results)| <= config.maxRepos ==> |results| <= config.maxRepos
    {
      ghost var pagesOf := TopicPages(client, config);
      ghost var run := TopicsRun(pagesOf, DetailOf(client), config.maxRepos, config.topics, old(results));
      assert |run.results| >= |old(results)| && run.results[..|old(results)|] == old(results);
      for t := 0 to |config.topics|
        invariant run == TopicsRun(pagesOf, DetailOf(client), config.maxRepos, config.topics[t..], results)
      {
        ghost var before := results;
        var error := ScrapeTopic(config.topics[t]);
        TopicsRunStep(pagesOf, DetailOf(client), config.maxRepos, config.topics, t, before);
        if error.Some? {
          r := Err(error.value);
          return;
        }
      }
      TopicsRunDone(pagesOf, DetailOf(client), config.maxRepos, config.topics, results);
      r := Ok(results);
    }

    /** One topic of `scrape_repositories()`: its query, then its pages. */
    method ScrapeTopic(topic: string) returns (error: Option<Error>)
      modifies this
      ensures var run := TopicRun(TopicPages(client, config)(topic), DetailOf(client), config.maxRepos, 1, old(results));
              results == run.results && error == run.error
    {
      var query := SearchQuery(config, topic);
      TopicPagesAt(client, config, topic);
      error := ScrapeQuery(query);
    }

    /** The `while` loop of `scrape_repositories()` for one topic: pages
        from 1 on until `max_repos` records are held or a page is empty. */
    method ScrapeQuery(query: string) returns (error: Option<Error>)
      modifies this
      ensures var run := TopicRun(SearchPages(client, query), DetailOf(client), config.maxRepos, 1, old(results));
              results == run.results && error == run.error
    {
      ghost var pages := SearchPages(client, query);
      ghost var detail := DetailOf(client);
      ghost var run := TopicRun(pages, detail, config.maxRepos, 1, results);
      var page := 1;
      while |results| < config.maxRepos
        invariant run == TopicRun(pages, detail, config.maxRepos, page, results)
        decreases config.maxRepos - |results|
      {
        TopicRunStep(pages, detail, config.maxRepos, page, results);
        var hits := SearchPage(query, page);
        assert pages(page) == hits;
        if hits.Err? {
          return Some(hits.error);
        }
        if hits.value == [] {
          break;
        }
        error := ScrapePage(hits.value);
        if error.Some? {
          return;
        }
        page := page + 1;
      }
      return None;
    }

    /** The head of the page loop: search one page and read its `items`,
        `[]` when `items` is falsy. */
    method SearchPage(query: string, page: int) returns (hits: Result<seq<Value>, Error>)
      ensures hits == PageHits(client, query, page)
    {
      var response := client.SearchRepositories(query, page);
      if response.Err? {
        return Err(response.error);
      }
      var items := Subscript(response.value, "items");
      if items.Err? {
        return Err(items.error);
      }
      if !Truthy(items.value) {
        return Ok([]);
      }
      hits := Iterate(items.value);
    }

    /** The `for` loop of `scrape_repositories()` over one page's hits. */
    method ScrapePage(hits: seq<Value>) returns (error: Option<Error>)
      modifies this
      ensures var run := PageRun(DetailOf(client), config.maxRepos, hits, old(results));
              results == run.results && error == run.error
    {
      ghost var pageStart := results;
      for i := 0 to |hits|
        invariant PageRun(DetailOf(client), config.maxRepos, hits, pageStart) ==
                  PageRun(DetailOf(client), config.maxRepos, hits[i..], results)
      {
        if |results| >= config.maxRepos {
          break;
        }
        var repo := hits[i];
        assert hits[i..][0] == repo && hits[i..][1..] == hits[i + 1..];
        var owner := Subscript(repo, "owner");
        if owner.Err? {
          return Some(owner.error);
        }
        var login := Subscript(owner.value, "login");
        if login.Err? {
          return Some(login.error);
        }
        var name := Subscript(repo, "name");
        if name.Err? {
          return Some(name.error);
        }
        var detailed := client.GetRepository(login.value, name.value);
        if detailed.Err? {
          return Some(detailed.error);
        }
        results := results + [detailed.value];
      }
      return None;
    }
  }
}
