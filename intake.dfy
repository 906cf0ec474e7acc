/** How payloads reach the queue: `handle_payload` in styleguard.py, and the web
    endpoint `api_pr` with its `handle_payload` in ofCodeStyleGuard.py. */
module Intake {
  import opened Text
  import opened Errors
  import opened Settings
  import opened Startup
  import opened Queues

  /** What `handle_payload` is given: a PR number (a manual trigger), an already parsed
      pull request, or anything else. */
  datatype Payload = IntPayload(n: nat) | DictPayload(pr: PullRequest) | OtherPayload

  /** The API's answer to the PR request: `req.ok`, and the parsed body when it is ok. */
  datatype ApiReply = ApiReply(ok: bool, pr: PullRequest)

  /** GET /repos/:owner/:repo/pulls/:number. */
  function PullsUrl(ownerRepo: string, n: nat): string {
    "https://api.github.com/repos/" + ownerRepo + "/pulls/" + NatToString(n)
  }

  /** Different PR numbers are requested at different URLs. */
  lemma PullsUrlsDistinct(ownerRepo: string, a: nat, b: nat)
    requires a != b
    ensures PullsUrl(ownerRepo, a) != PullsUrl(ownerRepo, b)
  {
    var p := "https://api.github.com/repos/" + ownerRepo + "/pulls/";
    if PullsUrl(ownerRepo, a) == PullsUrl(ownerRepo, b) {
      assert PullsUrl(ownerRepo, a)[|p|..] == NatToString(a);
      assert PullsUrl(ownerRepo, b)[|p|..] == NatToString(b);
      NatToStringInjective(a, b);
    }
  }

  /** What `handle_payload` puts on the queue. `api(url, token)` answers the request. */
  function Enqueued(payload: Payload, g: Globals, api: (string, string) -> ApiReply): (items: seq<PullRequest>)
    ensures |items| <= 1
    ensures payload.OtherPayload? ==> items == []
    ensures payload.DictPayload? ==> items == [payload.pr]
    ensures payload.IntPayload? ==>
      var reply := api(PullsUrl(g.ownerRepo, payload.n), g.token);
      (items != [] <==> reply.ok) && (reply.ok ==> items == [reply.pr])
  {
    match payload
    case IntPayload(n) =>
      var reply := api(PullsUrl(g.ownerRepo, n), g.token);
      if reply.ok then [reply.pr] else []
    case DictPayload(pr) => [pr]
    case OtherPayload => []
  }

  /** `handle_payload`: dispatch on the payload's type and put at most one pull request. */
  method HandlePayload(q: JobQueue<PullRequest>, payload: Payload, g: Globals, api: (string, string) -> ApiReply)
    modifies q
    ensures q.items == old(q.items) + Enqueued(payload, g, api)
    ensures q.unfinished == old(q.unfinished) + |Enqueued(payload, g, api)|
  {
    match payload {
      case IntPayload(n) =>
        var reply := api(PullsUrl(g.ownerRepo, n), g.token);
        if reply.ok {
          q.Put(reply.pr);
        }
      case DictPayload(pr) =>
        q.Put(pr);
      case OtherPayload =>
    }
  }

  /** The sender the local sample-payload fallback is reserved for. */
  const Localhost: string := "127.0.0.1"

  /** ofCodeStyleGuard.py's `api_pr`: requests from outside the allow-list are ignored
      (`Ok(None)`); a request without a `payload` form field is answered from the sample
      file when it comes from the local host and raises KeyError otherwise. `form` is the
      parsed `payload` field, `None` when it is missing. */
  function LegacyApiPr(remoteAddr: string, form: Option<HookEvent>, sample: HookEvent): (r: Result<Option<HookEvent>>)
    ensures r.Ok? && r.value.Some? ==> remoteAddr in GithubIps
    ensures remoteAddr !in GithubIps ==> r == Ok(None)
    ensures remoteAddr in GithubIps && form.Some? ==> r == Ok(form)
    ensures remoteAddr in GithubIps && form.None? ==>
      if remoteAddr == Localhost then r == Ok(Some(sample)) else r.Err? && r.failure.Crash?
  {
    if remoteAddr !in GithubIps then Ok(None)
    else match form
      case Some(ev) => Ok(Some(ev))
      case None =>
        if remoteAddr == Localhost then Ok(Some(sample))
        else Err(Crash("KeyError: payload"))
  }

  /** The endpoint followed by the old `handle_payload`, which always puts. */
  method LegacyPost(q: JobQueue<HookEvent>, remoteAddr: string, form: Option<HookEvent>, sample: HookEvent)
    returns (r: Result<Option<HookEvent>>)
    modifies q
    ensures r == LegacyApiPr(remoteAddr, form, sample)
    ensures q.items == old(q.items) + (if r.Ok? && r.value.Some? then [r.value.value] else [])
    ensures q.unfinished == old(q.unfinished) + (if r.Ok? && r.value.Some? then 1 else 0)
  {
    r := LegacyApiPr(remoteAddr, form, sample);
    if r.Ok? && r.value.Some? {
      q.Put(r.value.value);
    }
  }
}
