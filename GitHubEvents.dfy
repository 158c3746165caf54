/** The LangChain agent's "list GitHub events" tool: it fetches the signed-in
    user's recent GitHub events, projects each onto a few fields with
    defaults and a one-line payload summary, and turns an upstream 401 or
    403 into the token-vault authorization error that prompts the user to
    (re)connect GitHub. The GitHub client itself is a parameter. */
module GitHubEvents {
  import opened Prelude

  datatype PullRequest = PullRequest(title: Option<string>)
  datatype Issue = Issue(title: Option<string>)

  /** The fields of an event payload that the summary reads; of `commits`
      only its length is read. */
  datatype Payload = Payload(
    commitCount: Option<nat>,
    action: Option<string>,
    pullRequest: Option<PullRequest>,
    issue: Option<Issue>,
    refType: Option<string>,
    gitRef: Option<string>)

  datatype Repo = Repo(name: Option<string>, url: Option<string>)
  datatype Actor = Actor(login: Option<string>, avatarUrl: Option<string>)

  /** An event as the GitHub API returns it. */
  datatype RawEvent = RawEvent(
    id: string,
    eventType: string,
    createdAt: Option<string>,
    repo: Option<Repo>,
    actor: Option<Actor>,
    payload: Payload,
    isPublic: bool)

  /** An event as the tool reports it. */
  datatype FormattedEvent = FormattedEvent(
    id: string,
    eventType: string,
    createdAt: Option<string>,
    repoName: string,
    repoUrl: string,
    actorLogin: string,
    actorAvatarUrl: string,
    payloadSummary: string,
    isPublic: bool)

  datatype EventsPage = EventsPage(events: seq<FormattedEvent>, totalEvents: nat, page: int, perPage: int)

  /** What the GitHub client can throw: its `RequestError` with an HTTP
      status, or anything else. */
  datatype Failure = RequestError(status: int, message: string) | OtherFailure(message: string)

  /** Outcome of one call of the tool: a page of events, the authorization
      interrupt, or an error passed on unchanged. */
  datatype ToolOutcome = Listed(result: EventsPage) | TokenVaultError(message: string) | Thrown(failure: Failure)

  datatype Fetched<T> = Fetched(value: T) | Failed(failure: Failure)

  const DefaultPerPage: int := 30
  const DefaultPage: int := 1
  const UnauthorizedMessage: string := "Authorization required to access your GitHub events. Please connect your GitHub account."
  const ForbiddenMessage: string := "Access forbidden. Your GitHub token may not have the required permissions to access events."

  /** `${x}` of a possibly undefined string. */
  function Show(o: Option<string>): string {
    if o.Some? then o.value else "undefined"
  }

  const PushPrefix: string := "Pushed "
  const PushSuffix: string := " commit(s)"

  /** `getPayloadSummary`. */
  function PayloadSummary(eventType: string, payload: Payload): string {
    if eventType == "PushEvent" then
      PushPrefix + NatToString(Default(payload.commitCount, 0)) + PushSuffix
    else if eventType == "PullRequestEvent" then
      Show(payload.action) + " pull request: "
        + Show(if payload.pullRequest.Some? then payload.pullRequest.value.title else None)
    else if eventType == "IssuesEvent" then
      Show(payload.action) + " issue: " + Show(if payload.issue.Some? then payload.issue.value.title else None)
    else if eventType == "CreateEvent" then
      "Created " + Show(payload.refType) + ": " + Or(payload.gitRef, "")
    else if eventType == "WatchEvent" then "Starred repository"
    else if eventType == "ForkEvent" then "Forked repository"
    else eventType
  }

  /** Reads the commit count back out of a push summary. */
  function PushedCount(summary: string): Option<nat> {
    if |summary| >= |PushPrefix| + |PushSuffix|
       && summary[..|PushPrefix|] == PushPrefix
       && summary[|summary| - |PushSuffix|..] == PushSuffix
    then
      var digits := summary[|PushPrefix|..|summary| - |PushSuffix|];
      if |digits| >= 1 && AllDigits(digits) then Some(DigitsValue(digits)) else None
    else None
  }

  /** A push summary states the number of commits, or 0 when the payload
      has no commits list. */
  lemma PushSummaryCountsCommits(payload: Payload)
    ensures PushedCount(PayloadSummary("PushEvent", payload))
            == Some(if payload.commitCount.Some? then payload.commitCount.value else 0)
  {
    var n := Default(payload.commitCount, 0);
    var d := NatToString(n);
    NatToStringDigits(n);
    var s := PayloadSummary("PushEvent", payload);
    assert s == PushPrefix + d + PushSuffix;
    assert s[..|PushPrefix|] == PushPrefix;
    assert s[|s| - |PushSuffix|..] == PushSuffix;
    assert s[|PushPrefix|..|s| - |PushSuffix|] == d;
  }

  /** Pull-request and issue summaries: the action, a fixed phrase, then
      the title; a missing action or title shows as "undefined". */
  lemma TitledSummaries(payload: Payload)
    ensures PayloadSummary("PullRequestEvent", payload)
            == Show(payload.action) + " pull request: "
               + (if payload.pullRequest.Some? && payload.pullRequest.value.title.Some?
                  then payload.pullRequest.value.title.value else "undefined")
    ensures PayloadSummary("IssuesEvent", payload)
            == Show(payload.action) + " issue: "
               + (if payload.issue.Some? && payload.issue.value.title.Some?
                  then payload.issue.value.title.value else "undefined")
  {
  }

  /** A create summary names the ref type and ref, the ref empty when missing. */
  lemma CreateSummary(payload: Payload)
    ensures PayloadSummary("CreateEvent", payload)
            == "Created " + Show(payload.refType) + ": "
               + (if payload.gitRef.Some? then payload.gitRef.value else "")
  {
  }

  /** Star and fork summaries ignore the payload. */
  lemma FixedSummaries(p: Payload, q: Payload)
    ensures PayloadSummary("WatchEvent", p) == PayloadSummary("WatchEvent", q) == "Starred repository"
    ensures PayloadSummary("ForkEvent", p) == PayloadSummary("ForkEvent", q) == "Forked repository"
  {
  }

  /** Any other event type is summarised as the type itself. */
  lemma OtherTypesEchoed(eventType: string, payload: Payload)
    requires eventType !in ["PushEvent", "PullRequestEvent", "IssuesEvent", "CreateEvent", "WatchEvent", "ForkEvent"]
    ensures PayloadSummary(eventType, payload) == eventType
  {
  }

  /** The `.map` callback of the tool body. */
  function FormatEvent(e: RawEvent): (r: FormattedEvent)
    ensures r.id == e.id && r.eventType == e.eventType && r.createdAt == e.createdAt && r.isPublic == e.isPublic
    ensures r.payloadSummary == PayloadSummary(e.eventType, e.payload)
    ensures r.repoName != "" && r.actorLogin != ""
    ensures r.repoName == (if e.repo.Some? && Truthy(e.repo.value.name) then e.repo.value.name.value else "Unknown")
    ensures r.actorLogin == (if e.actor.Some? && Truthy(e.actor.value.login) then e.actor.value.login.value else "Unknown")
    ensures r.repoUrl == (if e.repo.Some? && Truthy(e.repo.value.url) then e.repo.value.url.value else "")
    ensures r.actorAvatarUrl == (if e.actor.Some? && Truthy(e.actor.value.avatarUrl) then e.actor.value.avatarUrl.value else "")
  {
    FormattedEvent(
      e.id,
      e.eventType,
      e.createdAt,
      Or(if e.repo.Some? then e.repo.value.name else None, "Unknown"),
      Or(if e.repo.Some? then e.repo.value.url else None, ""),
      Or(if e.actor.Some? then e.actor.value.login else None, "Unknown"),
      Or(if e.actor.Some? then e.actor.value.avatarUrl else None, ""),
      PayloadSummary(e.eventType, e.payload),
      e.isPublic)
  }

  /** The formatted list: one entry per fetched event, in the same order. */
  function FormatEvents(data: seq<RawEvent>): (r: seq<FormattedEvent>)
    ensures |r| == |data|
    ensures forall i :: 0 <= i < |data| ==> r[i] == FormatEvent(data[i])
    decreases |data|
  {
    if |data| == 0 then [] else [FormatEvent(data[0])] + FormatEvents(data[1..])
  }

  /** The `catch` block: an upstream 401 or 403 becomes the authorization
      interrupt, each with its own message; anything else is rethrown. */
  function ClassifyFailure(e: Failure): ToolOutcome {
    if e.RequestError? && e.status == 401 then TokenVaultError(UnauthorizedMessage)
    else if e.RequestError? && e.status == 403 then TokenVaultError(ForbiddenMessage)
    else Thrown(e)
  }

  lemma ClassifyFailureCases(e: Failure)
    ensures ClassifyFailure(e).TokenVaultError? <==> e.RequestError? && (e.status == 401 || e.status == 403)
    ensures !ClassifyFailure(e).TokenVaultError? ==> ClassifyFailure(e) == Thrown(e)
    ensures !ClassifyFailure(e).Listed?
    ensures e.RequestError? && e.status == 401 ==> ClassifyFailure(e) == TokenVaultError(UnauthorizedMessage)
    ensures e.RequestError? && e.status == 403 ==> ClassifyFailure(e) == TokenVaultError(ForbiddenMessage)
    ensures UnauthorizedMessage != ForbiddenMessage
  {
  }

  /** The tool body. `accessToken` is the token-vault lookup (outside the
      `try`), `fetchEvents` the two GitHub calls given the token, the page
      size and the page. */
  function ListGitHubEvents(perPage: Option<int>, page: Option<int>,
                            accessToken: Fetched<string>,
                            fetchEvents: (string, int, int) -> Fetched<seq<RawEvent>>): ToolOutcome
  {
    var size := Default(perPage, DefaultPerPage);
    var number := Default(page, DefaultPage);
    match accessToken
    case Failed(e) => Thrown(e)
    case Fetched(token) =>
      match fetchEvents(token, size, number)
      case Failed(e) => ClassifyFailure(e)
      case Fetched(data) =>
        var events := FormatEvents(data);
        Listed(EventsPage(events, |events|, number, size))
  }

  /** A successful call lists every fetched event, formatted, in order;
      `total_events` is their number; page and page size default to 1 and
      30 and are echoed back, and are what was asked of GitHub. */
  lemma ListedPage(perPage: Option<int>, page: Option<int>, token: string,
                   fetchEvents: (string, int, int) -> Fetched<seq<RawEvent>>)
    requires fetchEvents(token, Default(perPage, 30), Default(page, 1)).Fetched?
    ensures var data := fetchEvents(token, Default(perPage, 30), Default(page, 1)).value;
            var out := ListGitHubEvents(perPage, page, Fetched(token), fetchEvents);
            && out.Listed?
            && |out.result.events| == out.result.totalEvents == |data|
            && (forall i :: 0 <= i < |data| ==> out.result.events[i] == FormatEvent(data[i]))
            && out.result.page == (if page.Some? then page.value else 1)
            && out.result.perPage == (if perPage.Some? then perPage.value else 30)
  {
  }

  /** A failing GitHub call never lists anything: it is classified. */
  lemma FailedFetchClassified(perPage: Option<int>, page: Option<int>, token: string,
                              fetchEvents: (string, int, int) -> Fetched<seq<RawEvent>>)
    requires fetchEvents(token, Default(perPage, 30), Default(page, 1)).Failed?
    ensures ListGitHubEvents(perPage, page, Fetched(token), fetchEvents)
            == ClassifyFailure(fetchEvents(token, Default(perPage, 30), Default(page, 1)).failure)
  {
  }
}
