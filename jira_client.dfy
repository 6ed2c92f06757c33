/**
 * The Jira client of helpers/jiraClient.ts: the base-URL normalisation done by
 * its constructor, the request body of `searchJQL`, and the cursor loop of
 * `getAllIssues`. The HTTP exchange is modelled by a scripted, finite sequence
 * of responses: the k-th request made is answered by `script[k]`.
 */
module JiraClient {
  import opened Wrappers
  import opened JsonModel

  // ---------------------------------------------------------------------------
  // Base URL
  // ---------------------------------------------------------------------------

  /** `s.replace(/\/+$/, '')`: drop the run of `/` that ends the text. */
  function StripTrailingSlashes(s: string): (r: string)
    ensures r <= s
    ensures |r| == 0 || r[|r| - 1] != '/'
    ensures forall i :: |r| <= i < |s| ==> s[i] == '/'
  {
    if |s| > 0 && s[|s| - 1] == '/' then StripTrailingSlashes(s[..|s| - 1]) else s
  }

  function Slashes(n: nat): (r: string)
    ensures |r| == n && forall i :: 0 <= i < n ==> r[i] == '/'
  {
    seq(n, _ => '/')
  }

  /** The strip removes exactly the trailing slashes: any text that does not end
      in `/`, followed by any number of slashes, comes back as that text. */
  lemma {:induction false} StripExactly(p: string, n: nat)
    requires |p| == 0 || p[|p| - 1] != '/'
    ensures StripTrailingSlashes(p + Slashes(n)) == p
  {
    if n == 0 {
      assert p + Slashes(0) == p;
    } else {
      assert (p + Slashes(n))[..|p| + n - 1] == p + Slashes(n - 1);
      StripExactly(p, n - 1);
    }
  }

  /** Stripping twice is stripping once. */
  lemma StripIdempotent(s: string)
    ensures StripTrailingSlashes(StripTrailingSlashes(s)) == StripTrailingSlashes(s)
  {
  }

  /** The constructor's `(process.env.JIRA_BASE_URL || '').replace(/\/+$/, '')`:
      an unset or empty variable gives the empty base URL. */
  function ClientBaseUrl(env: Option<string>): (r: string)
    ensures |r| == 0 || r[|r| - 1] != '/'
    ensures env.None? ==> r == ""
    ensures env.Some? ==> r <= env.value
    ensures env.Some? ==> forall i :: |r| <= i < |env.value| ==> env.value[i] == '/'
  {
    StripTrailingSlashes(env.GetOr(""))
  }

  // ---------------------------------------------------------------------------
  // Request body of searchJQL
  // ---------------------------------------------------------------------------

  /** The JSON body posted to `/rest/api/3/search/jql`; `None` fields are omitted. */
  datatype SearchBody = SearchBody(
    jql: string,
    maxResults: int,
    fields: Option<seq<string>>,
    nextPageToken: Option<string>)

  /** What a body built for these arguments carries: always `jql` and
      `maxResults`; `fields` only for a present, non-empty list; `nextPageToken`
      only for a truthy (non-empty) token. */
  predicate IsSearchBody(b: SearchBody, jql: string, fields: Option<seq<string>>,
                         token: Option<string>, maxResults: int)
  {
    && b.jql == jql
    && b.maxResults == maxResults
    && (b.fields.Some? <==> fields.Some? && |fields.value| > 0)
    && (b.fields.Some? ==> b.fields == fields)
    && (b.nextPageToken.Some? <==> token.Some? && |token.value| > 0)
    && (b.nextPageToken.Some? ==> b.nextPageToken == token)
  }

  /** `searchJQL`: builds the body field by field, as the source does. */
  method SearchJql(jql: string, fields: Option<seq<string>>, nextPageToken: Option<string>,
                   maxResults: int := 100)
    returns (body: SearchBody)
    ensures IsSearchBody(body, jql, fields, nextPageToken, maxResults)
  {
    body := SearchBody(jql, maxResults, None, None);
    if fields.Some? && |fields.value| > 0 {
      body := body.(fields := fields);
    }
    if nextPageToken.Some? && |nextPageToken.value| > 0 {
      body := body.(nextPageToken := nextPageToken);
    }
  }

  // ---------------------------------------------------------------------------
  // Responses and the pagination specification
  // ---------------------------------------------------------------------------

  /** `data.issues` of a response: an array of issues, or anything else. */
  datatype IssuesField = IssueArray(items: seq<Issue>) | NotAnArray

  /** One answer of the search endpoint: the HTTP status and the three fields of
      `resp.data` the loop reads. */
  datatype SearchResponse = SearchResponse(
    status: int,
    issues: IssuesField,
    nextPageToken: JsValue,
    isLast: JsValue)

  /** Why `getAllIssues` produced no list: the `throw` on a status other than
      200, or a script with no response left for a request. */
  datatype FetchError = SearchFailed(status: int) | ScriptExhausted

  /** `Array.isArray(data.issues) ? data.issues : []` */
  function PageIssues(r: SearchResponse): (page: seq<Issue>)
    ensures r.issues.IssueArray? ==> page == r.issues.items
    ensures r.issues.NotAnArray? ==> page == []
  {
    if r.issues.IssueArray? then r.issues.items else []
  }

  /** The cursor the loop keeps: only a non-empty string counts as a token. */
  function CursorOf(r: SearchResponse): (c: Option<string>)
    ensures c.Some? <==> r.nextPageToken.Str? && |r.nextPageToken.s| > 0
    ensures c.Some? ==> c.value == r.nextPageToken.s
  {
    if r.nextPageToken.Str? && |r.nextPageToken.s| > 0 then Some(r.nextPageToken.s) else None
  }

  /** `data.isLast === true`: only the boolean `true` marks the last page. */
  predicate IsLastPage(r: SearchResponse): (last: bool)
    ensures last <==> r.isLast.Bool? && r.isLast.b
    ensures r.isLast == Str("true") || r.isLast == Num(1) ==> !last
  {
    r.isLast == Bool(true)
  }

  /** A response after which no further request is made: an error status, the
      last page, or a page without a usable cursor (the safety break). */
  predicate EndsFetch(r: SearchResponse) {
    r.status != 200 || IsLastPage(r) || CursorOf(r).None?
  }

  /** Index of the first response that ends the fetch; `|script|` if none does. */
  function FirstStop(script: seq<SearchResponse>): (k: nat)
    ensures k <= |script|
    ensures forall i :: 0 <= i < k ==> !EndsFetch(script[i])
    ensures k < |script| ==> EndsFetch(script[k])
  {
    if |script| == 0 then 0
    else if EndsFetch(script[0]) then 0
    else 1 + FirstStop(script[1..])
  }

  /** The issues of the first `n` pages, in page order. */
  function Pages(script: seq<SearchResponse>, n: nat): seq<Issue>
    requires n <= |script|
  {
    if n == 0 then [] else Pages(script, n - 1) + PageIssues(script[n - 1])
  }

  /** What `getAllIssues` yields for a script: the concatenated pages up to and
      including the one that ends the fetch, or the error that discards them. */
  function FetchOutcome(script: seq<SearchResponse>): Result<seq<Issue>, FetchError> {
    var k := FirstStop(script);
    if k == |script| then Failure(ScriptExhausted)
    else if script[k].status != 200 then Failure(SearchFailed(script[k].status))
    else Success(Pages(script, k + 1))
  }

  /** Requests answered before the loop ends. */
  function RequestCount(script: seq<SearchResponse>): (n: nat)
    ensures n <= |script|
  {
    if FirstStop(script) < |script| then FirstStop(script) + 1 else |script|
  }

  // ---------------------------------------------------------------------------
  // getAllIssues
  // ---------------------------------------------------------------------------

  /**
   * `getAllIssues`: request pages with the current cursor, append each page's
   * issues, stop after the last page or when no cursor arrives, throw on a
   * status other than 200. `sent` lists the bodies of the answered requests.
   */
  method GetAllIssues(script: seq<SearchResponse>, jql: string, fields: Option<seq<string>>,
                      maxResults: int := 100)
    returns (result: Result<seq<Issue>, FetchError>, sent: seq<SearchBody>)
    ensures result == FetchOutcome(script)
    ensures |sent| == RequestCount(script)
    ensures forall k :: 0 <= k < |sent| ==>
      IsSearchBody(sent[k], jql, fields, if k == 0 then None else CursorOf(script[k - 1]), maxResults)
    ensures |sent| > 0 ==> sent[0].nextPageToken == None
    ensures forall k :: 0 < k < |sent| ==>
      sent[k].nextPageToken.Some? && sent[k].nextPageToken == CursorOf(script[k - 1])
  {
    var all: seq<Issue> := [];
    var nextPageToken: Option<string> := None;
    var isLast := false;
    sent := [];

    while !isLast
      invariant |sent| <= |script|
      invariant all == Pages(script, |sent|)
      invariant forall i :: 0 <= i < |sent| - 1 ==> !EndsFetch(script[i])
      invariant !isLast ==> forall i :: 0 <= i < |sent| ==> !EndsFetch(script[i])
      invariant isLast ==> 0 < |sent| && script[|sent| - 1].status == 200 && IsLastPage(script[|sent| - 1])
      invariant nextPageToken == if |sent| == 0 then None else CursorOf(script[|sent| - 1])
      invariant forall k :: 0 <= k < |sent| ==>
        IsSearchBody(sent[k], jql, fields, if k == 0 then None else CursorOf(script[k - 1]), maxResults)
      decreases |script| - |sent|
    {
      if |sent| == |script| {
        assert FirstStop(script) == |script|;
        result := Failure(ScriptExhausted);
        return;
      }
      var body := SearchJql(jql, fields, nextPageToken, maxResults);
      var resp := script[|sent|];
      sent := sent + [body];
      assert script[|sent| - 1] == resp;
      if resp.status != 200 {
        assert FirstStop(script) == |sent| - 1;
        result := Failure(SearchFailed(resp.status));
        return;
      }

      all := all + PageIssues(resp);

      nextPageToken := CursorOf(resp);
      isLast := IsLastPage(resp);

      if nextPageToken.None? && !isLast {
        break;
      }
    }
    assert FirstStop(script) == |sent| - 1;
    result := Success(all);
  }

  // ---------------------------------------------------------------------------
  // Properties of the pagination
  // ---------------------------------------------------------------------------

  /** `Success` prepends a page to the rest of the fetch; an error passes through. */
  function Prepend(page: seq<Issue>, rest: Result<seq<Issue>, FetchError>): Result<seq<Issue>, FetchError> {
    match rest
    case Success(xs) => Success(page + xs)
    case Failure(e) => Failure(e)
  }

  lemma {:induction false} PagesShift(r: SearchResponse, rest: seq<SearchResponse>, n: nat)
    requires n <= |rest|
    ensures Pages([r] + rest, n + 1) == PageIssues(r) + Pages(rest, n)
  {
    if n > 0 {
      PagesShift(r, rest, n - 1);
      assert ([r] + rest)[n] == rest[n - 1];
    }
  }

  /** The loop one step at a time: the first response either throws, ends the
      fetch with its own page, or contributes its page ahead of the rest. */
  lemma FetchStep(r: SearchResponse, rest: seq<SearchResponse>)
    ensures FetchOutcome([r] + rest) ==
      if r.status != 200 then Failure(SearchFailed(r.status))
      else if EndsFetch(r) then Success(PageIssues(r))
      else Prepend(PageIssues(r), FetchOutcome(rest))
  {
    var s := [r] + rest;
    assert s[0] == r && s[1..] == rest;
    if !EndsFetch(r) {
      assert FirstStop(s) == 1 + FirstStop(rest);
      var k := FirstStop(rest);
      if k < |rest| {
        assert s[k + 1] == rest[k];
        PagesShift(r, rest, k + 1);
      }
    } else {
      assert FirstStop(s) == 0;
      assert Pages(s, 1) == PageIssues(r);
    }
  }

  /** Only a literal `true` stops the loop: with a usable cursor, an `isLast` of
      `"true"`, `1` or anything else lets the next page be requested. */
  lemma IsLastMustBeTrue(r: SearchResponse, rest: seq<SearchResponse>)
    requires r.status == 200 && CursorOf(r).Some?
    requires r.isLast != Bool(true)
    ensures FetchOutcome([r] + rest) == Prepend(PageIssues(r), FetchOutcome(rest))
  {
    FetchStep(r, rest);
  }

  /** The safety break: a page without a usable cursor that is not the last page
      ends the fetch with what was collected; nothing after it is requested. */
  lemma SafetyBreak(r: SearchResponse, rest: seq<SearchResponse>)
    requires r.status == 200 && CursorOf(r).None?
    ensures FetchOutcome([r] + rest) == Success(PageIssues(r))
    ensures RequestCount([r] + rest) == 1
  {
    FetchStep(r, rest);
    assert ([r] + rest)[0] == r;
  }

  /** The safety break on any page the loop reaches: the fetch ends with the
      pages up to and including that one, after exactly that many requests. */
  lemma SafetyBreakAt(script: seq<SearchResponse>, i: nat)
    requires i < |script|
    requires forall j :: 0 <= j < i ==> !EndsFetch(script[j])
    requires script[i].status == 200 && CursorOf(script[i]).None?
    ensures FetchOutcome(script) == Success(Pages(script, i + 1))
    ensures RequestCount(script) == i + 1
  {
    assert FirstStop(script) == i;
  }

  /** An error status on any page reached by the loop discards every page read
      before it. */
  lemma ErrorDiscardsPages(script: seq<SearchResponse>, i: nat)
    requires i < |script| && script[i].status != 200
    requires forall j :: 0 <= j < i ==> !EndsFetch(script[j])
    ensures FetchOutcome(script) == Failure(SearchFailed(script[i].status))
  {
    assert FirstStop(script) == i;
  }

  lemma {:induction false} FirstStopPrefix(script: seq<SearchResponse>, more: seq<SearchResponse>)
    requires FirstStop(script) < |script|
    ensures FirstStop(script + more) == FirstStop(script)
  {
    var k := FirstStop(script);
    assert (script + more)[k] == script[k];
    forall i | 0 <= i < k ensures !EndsFetch((script + more)[i]) {
      assert (script + more)[i] == script[i];
    }
  }

  lemma {:induction false} PagesPrefix(script: seq<SearchResponse>, more: seq<SearchResponse>, n: nat)
    requires n <= |script|
    ensures Pages(script + more, n) == Pages(script, n)
  {
    if n > 0 {
      PagesPrefix(script, more, n - 1);
      assert (script + more)[n - 1] == script[n - 1];
    }
  }

  lemma {:induction false} OutcomePrefix(script: seq<SearchResponse>, more: seq<SearchResponse>)
    requires FirstStop(script) < |script|
    ensures FetchOutcome(script + more) == FetchOutcome(script)
  {
    var k := FirstStop(script);
    var whole := script + more;
    FirstStopPrefix(script, more);
    assert whole[k] == script[k];
    PagesPrefix(script, more, k + 1);
  }

  lemma {:induction false} RequestCountPrefix(script: seq<SearchResponse>, more: seq<SearchResponse>)
    requires FirstStop(script) < |script|
    ensures RequestCount(script + more) == RequestCount(script)
  {
    FirstStopPrefix(script, more);
  }

  /** Responses after the one that ends the fetch are never read: the outcome
      does not depend on them. */
  lemma LaterResponsesIgnored(script: seq<SearchResponse>, more: seq<SearchResponse>)
    requires FirstStop(script) < |script|
    ensures FetchOutcome(script + more) == FetchOutcome(script)
    ensures RequestCount(script + more) == RequestCount(script)
  {
    OutcomePrefix(script, more);
    RequestCountPrefix(script, more);
  }

  /** Three pages of 100, 100 and 37 issues, the third flagged last, give
      exactly 237 issues in page order after three requests. */
  lemma ThreePages(a: seq<Issue>, b: seq<Issue>, c: seq<Issue>, t1: string, t2: string, last: JsValue)
    requires |a| == 100 && |b| == 100 && |c| == 37
    requires |t1| > 0 && |t2| > 0
    ensures var script := [
        SearchResponse(200, IssueArray(a), Str(t1), Bool(false)),
        SearchResponse(200, IssueArray(b), Str(t2), Bool(false)),
        SearchResponse(200, IssueArray(c), last, Bool(true))];
      && FetchOutcome(script) == Success(a + b + c)
      && |a + b + c| == 237
      && RequestCount(script) == 3
  {
    var r1 := SearchResponse(200, IssueArray(a), Str(t1), Bool(false));
    var r2 := SearchResponse(200, IssueArray(b), Str(t2), Bool(false));
    var r3 := SearchResponse(200, IssueArray(c), last, Bool(true));
    var script := [r1, r2, r3];
    assert script == [r1] + ([r2] + [r3]);
    FetchStep(r1, [r2] + [r3]);
    FetchStep(r2, [r3]);
    assert [r3] == [r3] + [];
    FetchStep(r3, []);
    assert a + (b + c) == a + b + c;
    assert FirstStop(script) == 2;
  }
}
