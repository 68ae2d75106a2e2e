/**
 * The request-assembly part of `InvidiousClient`
 * (invidious_api_client/client.py): the instance URL the constructor keeps,
 * the merge of the client's additional parameters into every request, the
 * URL of an API call, and the resolution of a video argument to its id.  The
 * session is the `Server` oracle.
 */
module Client {
  import opened Wrappers
  import opened JsonValues
  import opened Http
  import opened Text
  import opened Instances
  import opened Videos
  import opened Comments

  /** The state a client keeps: the instance URL without edge slashes,
      whether its constructor set the local Tor proxy on the session, and the
      parameters added to every request. */
  datatype InvidiousClient = InvidiousClient(instanceUrl: string, setsTorProxy: bool, additional: Option<Params>)

  /** The `instance` argument: an instance view, a URL string, or the `None`
      that `choose_instance` returns when no instance qualifies. */
  datatype InstanceArg = ByInstance(instance: Instance) | ByUrl(url: string) | NoInstance

  /** The `video` argument: an id string or a video view. */
  datatype VideoRef = ById(id: string) | ByVideo(video: YoutubeVideo)

  const ApiPath: string := "/api/v1/"
  const DislikeUrl: string := "https://returnyoutubedislikeapi.com/Votes?videoId="

  /** `(instance.uri if hasattr(instance, 'uri') else instance).strip('/')`.
      An `AttributeError` inside `uri` makes `hasattr` false, and the view
      itself has no `strip`; other exceptions propagate. */
  function InstanceUrl(arg: InstanceArg): (r: Result<string, Fault>)
    ensures arg.ByUrl? ==> r == Success(StripSlashes(arg.url))
    ensures forall u :: arg.ByInstance? && Uri(arg.instance) == Success(Some(Str(u))) ==> r == Success(StripSlashes(u))
    ensures arg.ByInstance? && !(Uri(arg.instance).Success? && Uri(arg.instance).value.Some? && Uri(arg.instance).value.value.Str?) ==> r.Failure?
    ensures arg.NoInstance? ==> r == Failure(AttributeError("strip"))
  {
    match arg
    case ByUrl(s) => Success(StripSlashes(s))
    case NoInstance => Failure(AttributeError("strip"))
    case ByInstance(i) =>
      match Uri(i)
      case Failure(AttributeError(_)) => Failure(AttributeError("strip"))
      case Failure(e) => Failure(e)
      case Success(Some(Str(s))) => Success(StripSlashes(s))
      case Success(_) => Failure(AttributeError("strip"))
  }

  /** The constructor as written: after keeping the URL it reads
      `instance.type`, which a string does not have. */
  function NewClient(arg: InstanceArg, additional: Option<Params>): (r: Result<InvidiousClient, Fault>)
    ensures arg.ByUrl? ==> r == Failure(AttributeError("type"))
    ensures arg.NoInstance? ==> r.Failure?
    ensures r.Success? ==> InstanceUrl(arg).Success? && r == Success(InvidiousClient(InstanceUrl(arg).value, r.value.setsTorProxy, additional))
    ensures r.Success? ==> NoEdgeSlash(r.value.instanceUrl)
    ensures forall u :: arg.ByInstance? && Uri(arg.instance) == Success(Some(Str(u))) ==>
      && r.Success?
      && IsSlashTrim(u, r.value.instanceUrl)
      && (r.value.setsTorProxy <==> InstanceType(arg.instance) == Success(Some(Str("onion"))))
  {
    var url :- InstanceUrl(arg);
    match arg
    case ByInstance(i) =>
      var t :- InstanceType(i);
      Success(InvidiousClient(url, t == Some(Str("onion")), additional))
    case _ => Failure(AttributeError("type"))
  }

  /** The constructor as intended: the type is read only from an instance view. */
  function NewClientFixed(arg: InstanceArg, additional: Option<Params>): (r: Result<InvidiousClient, Fault>)
    ensures arg.ByUrl? ==> r == Success(InvidiousClient(StripSlashes(arg.url), false, additional))
    ensures arg.ByUrl? ==> IsSlashTrim(arg.url, r.value.instanceUrl)
    ensures arg.ByInstance? ==> r == NewClient(arg, additional)
    ensures arg.NoInstance? ==> r.Failure?
  {
    match arg
    case ByUrl(s) => Success(InvidiousClient(StripSlashes(s), false, additional))
    case _ => NewClient(arg, additional)
  }

  /** The trailing slash of the example URL is stripped. */
  lemma ExampleUrlStripped()
    ensures StripSlashes("https://example.org/") == "https://example.org"
  {
    var s := "https://example.org/";
    assert StripLeading(s) == s;
    assert s[..|s| - 1] == "https://example.org";
    assert StripTrailing("https://example.org") == "https://example.org";
    assert StripTrailing(s) == "https://example.org";
  }

  /** A client built from a URL string: the constructor as written raises,
      the intended one keeps the stripped URL. */
  lemma UrlClientDefect()
    ensures NewClient(ByUrl("https://example.org/"), None).Failure?
    ensures NewClientFixed(ByUrl("https://example.org/"), None) == Success(InvidiousClient("https://example.org", false, None))
  {
    ExampleUrlStripped();
  }

  /** The kept URL is already stripped: stripping it again changes nothing. */
  lemma {:induction false} InstanceUrlStable(arg: InstanceArg, additional: Option<Params>)
    requires NewClientFixed(arg, additional).Success?
    ensures StripSlashes(NewClientFixed(arg, additional).value.instanceUrl) == NewClientFixed(arg, additional).value.instanceUrl
  {
  }

  /** Python's truthiness of `additional_parameters`: neither `None` nor empty. */
  predicate HasAdditional(additional: Option<Params>) {
    additional.Some? && |additional.value| > 0
  }

  /** The `params` a request is sent with.  With additional parameters, every
      caller key and every additional key is present, and the additional value
      wins on a collision; otherwise the caller's keyword is passed unchanged
      (and may be absent). */
  function MergeParams(caller: Option<Params>, additional: Option<Params>): (r: Option<Params>)
    ensures !HasAdditional(additional) ==> r == caller
    ensures HasAdditional(additional) ==>
      && r.Some?
      && r.value.Keys == (if caller.Some? then caller.value.Keys else {}) + additional.value.Keys
      && (forall k :: k in additional.value ==> r.value[k] == additional.value[k])
      && (forall k :: caller.Some? && k in caller.value && k !in additional.value ==> r.value[k] == caller.value[k])
  {
    if HasAdditional(additional) then
      Some((if caller.Some? then caller.value else map[]) + additional.value)
    else caller
  }

  /** The URL of a call: under the instance's API base when `append_to_api`,
      the given URI verbatim otherwise. */
  function ApiUrl(c: InvidiousClient, uri: string, appendToApi: bool): (r: string)
    ensures !appendToApi ==> r == uri
    ensures appendToApi ==>
      && |r| == |c.instanceUrl| + |ApiPath| + |uri|
      && r[..|c.instanceUrl|] == c.instanceUrl
      && r[|c.instanceUrl|..|c.instanceUrl| + |ApiPath|] == ApiPath
      && r[|c.instanceUrl| + |ApiPath|..] == uri
  {
    if appendToApi then c.instanceUrl + ApiPath + uri else uri
  }

  /** The request `_get_json` sends: to the API base or the URI verbatim,
      with every caller parameter and every additional one, an additional
      value winning on a collision and a caller value kept otherwise. */
  function PrepareRequest(c: InvidiousClient, uri: string, appendToApi: bool, params: Option<Params>): (r: Request)
    ensures appendToApi ==> r.url == c.instanceUrl + ApiPath + uri
    ensures !appendToApi ==> r.url == uri
    ensures !HasAdditional(c.additional) ==> r.params == params
    ensures HasAdditional(c.additional) ==>
      && r.params.Some?
      && (forall k :: k in c.additional.value ==> k in r.params.value && r.params.value[k] == c.additional.value[k])
      && (forall k :: params.Some? && k in params.value ==> k in r.params.value)
      && (forall k :: params.Some? && k in params.value && k !in c.additional.value ==> r.params.value[k] == params.value[k])
      && (forall k :: k in r.params.value ==> k in c.additional.value || (params.Some? && k in params.value))
  {
    Request(ApiUrl(c, uri, appendToApi), MergeParams(params, c.additional))
  }

  /** `video.video_id if hasattr(video, 'video_id') else video`, formatted.
      A view whose data has no `.get` fails `hasattr`, and the view object
      itself would be formatted. */
  function ResolveVideoId(v: VideoRef): (r: Result<string, Fault>)
    ensures v.ById? ==> r == Success(v.id)
    ensures forall s :: v.ByVideo? && VideoId(v.video) == Success(Some(Str(s))) ==> r == Success(s)
    ensures v.ByVideo? && VideoId(v.video) == Success(None) ==> r == Success("None")
    ensures v.ByVideo? && VideoId(v.video).Failure? ==> r.Failure?
    ensures r.Failure? ==> r.error == Unmodelled
  {
    match v
    case ById(id) => Success(id)
    case ByVideo(y) =>
      match VideoId(y)
      case Failure(_) => Failure(Unmodelled)
      case Success(None) => Render(Null)
      case Success(Some(x)) => Render(x)
  }

  /** The request `get_comments` sends: `comments/{id}` under the API base,
      with the merged parameters. */
  function CommentsRequest(c: InvidiousClient, video: VideoRef, params: Option<Params>): (r: Result<Request, Fault>)
    ensures r.Failure? <==> ResolveVideoId(video).Failure?
    ensures r.Failure? ==> r.error == Unmodelled
    ensures r.Success? ==>
      && r.value.url == c.instanceUrl + ApiPath + "comments/" + ResolveVideoId(video).value
      && r.value.params == MergeParams(params, c.additional)
    ensures video.ById? ==> r == Success(Request(c.instanceUrl + ApiPath + "comments/" + video.id, MergeParams(params, c.additional)))
  {
    var id :- ResolveVideoId(video);
    Success(PrepareRequest(c, "comments/" + id, true, params))
  }

  /** A video view and its id request the same comments. */
  lemma {:induction false} ViewAndIdAgree(c: InvidiousClient, y: YoutubeVideo, id: string, params: Option<Params>)
    requires VideoId(y) == Success(Some(Str(id)))
    ensures CommentsRequest(c, ByVideo(y), params) == CommentsRequest(c, ById(id), params)
    ensures CommentsRequest(c, ById(id), params).Success?
    ensures CommentsRequest(c, ById(id), params).value.url == c.instanceUrl + ApiPath + "comments/" + id
  {
    assert ResolveVideoId(ByVideo(y)) == Success(id);
  }

  /** `get_comments`: the page the server answers to
      `{instance_url}/api/v1/comments/{id}` with the merged parameters, or the
      raised error.  An id the model cannot format (the repr of a view or of
      a non-string id) gives the `Unmodelled` fault instead of a request. */
  function GetComments(c: InvidiousClient, video: VideoRef, params: Option<Params>, server: Server): (r: Result<CommentPage, Fault>)
    ensures ResolveVideoId(video).Failure? ==> r == Failure(Unmodelled)
    ensures ResolveVideoId(video).Success? ==>
      var answer := server(Request(c.instanceUrl + ApiPath + "comments/" + ResolveVideoId(video).value, MergeParams(params, c.additional)));
      (answer.Failure? ==> r == Failure(answer.error)) && (answer.Success? ==> r == Success(CommentPage(answer.value)))
  {
    var request :- CommentsRequest(c, video, params);
    var body :- server(request);
    Success(CommentPage(body))
  }

  /** `get_video`: the video the server answers to
      `{instance_url}/api/v1/videos/{id}` with the merged parameters, or the
      raised error. */
  function GetVideo(c: InvidiousClient, id: string, params: Option<Params>, server: Server): (r: Result<YoutubeVideo, Fault>)
    ensures var answer := server(Request(c.instanceUrl + ApiPath + "videos/" + id, MergeParams(params, c.additional)));
      (answer.Failure? ==> r == Failure(answer.error)) && (answer.Success? ==> r == Success(YoutubeVideo(answer.value)))
  {
    var request := PrepareRequest(c, "videos/" + id, true, params);
    assert request.url == c.instanceUrl + ApiPath + "videos/" + id;
    var body :- server(request);
    Success(YoutubeVideo(body))
  }

  /** The request `get_dislike_count` sends: the foreign endpoint verbatim,
      not under the instance, still with the additional parameters. */
  function DislikeRequest(c: InvidiousClient, video: VideoRef): (r: Result<Request, Fault>)
    ensures r.Failure? <==> ResolveVideoId(video).Failure?
    ensures r.Failure? ==> r.error == Unmodelled
    ensures r.Success? ==> r.value.url == DislikeUrl + ResolveVideoId(video).value
    ensures r.Success? ==> r.value.params == MergeParams(None, c.additional)
  {
    var id :- ResolveVideoId(video);
    Success(PrepareRequest(c, DislikeUrl + id, false, None))
  }
}
