/**
 * The instance directory views (invidious_api_client/models/instances.py):
 * `Instance` over one directory entry `[host, attributes]`, the nested
 * `InstanceStats`, `Monitor` and ratio views, and `InstancesList` over the
 * whole directory.  Instance selection is in module `Selection`.
 */
module Instances {
  import opened Wrappers
  import opened JsonValues
  import opened Http

  datatype Instance = Instance(data: Json)
  datatype InstanceStats = InstanceStats(data: Json)
  datatype Monitor = Monitor(data: Json)
  datatype Ratio = Ratio(data: Json)
  datatype InstancesList = InstancesList(data: Json)

  /** The public directory of instances. */
  const DirectoryUrl: string := "https://api.invidious.io/instances.json"

  /** A directory entry as the directory publishes it: a host name and an
      attributes object. */
  predicate WellFormed(i: Instance) {
    i.data.Arr? && |i.data.items| == 2 && i.data.items[0].Str? && i.data.items[1].Obj?
  }

  /** `json`: the entry's second element, the attributes object. */
  function Attributes(i: Instance): (r: Result<Json, Fault>)
    ensures WellFormed(i) ==> r == Success(i.data.items[1])
    ensures r.Success? <==> (i.data.Arr? && |i.data.items| >= 2) || (i.data.Str? && |i.data.s| >= 2)
    ensures i.data.Obj? ==> r == Failure(KeyError)
  {
    Index(i.data, 1)
  }

  /** `host` as written: it subscripts the attributes object, not the entry,
      with 0, and a dict has no key 0. */
  function Host(i: Instance): (r: Result<Json, Fault>)
    ensures WellFormed(i) ==> r == Failure(KeyError)
    ensures Attributes(i).Failure? ==> r == Attributes(i)
  {
    var a :- Attributes(i);
    Index(a, 0)
  }

  /** `host` as intended: the entry's first element. */
  function HostName(i: Instance): (r: Result<Json, Fault>)
    ensures WellFormed(i) ==> r == Success(i.data.items[0])
    ensures r.Success? <==> (i.data.Arr? && |i.data.items| >= 1) || (i.data.Str? && |i.data.s| >= 1)
  {
    Index(i.data, 0)
  }

  /** A concrete entry on which `host` raises while the intended reading
      gives the host name. */
  lemma HostDefect()
    ensures Host(Instance(Arr([Str("a.example"), Obj([("type", Str("https"))])]))) == Failure(KeyError)
    ensures HostName(Instance(Arr([Str("a.example"), Obj([("type", Str("https"))])]))) == Success(Str("a.example"))
  {
    var i := Instance(Arr([Str("a.example"), Obj([("type", Str("https"))])]));
    assert WellFormed(i);
  }

  /** An attribute read `self.json.get(key)`: raises what `json` raises,
      otherwise reads `key` of the attributes object. */
  predicate ReadsAttribute(r: Result<Option<Json>, Fault>, i: Instance, key: string) {
    match Attributes(i)
    case Failure(e) => r == Failure(e)
    case Success(a) => ReadsKey(r, a, key)
  }

  function Flag(i: Instance): (r: Result<Option<Json>, Fault>)
    ensures ReadsAttribute(r, i, "flag")
  {
    var a :- Attributes(i);
    Field(a, "flag")
  }

  /** The region code, as published (upper or lower case). */
  function Region(i: Instance): (r: Result<Option<Json>, Fault>)
    ensures ReadsAttribute(r, i, "region")
  {
    var a :- Attributes(i);
    Field(a, "region")
  }

  /** `"https"`, `"http"` or `"onion"`. */
  function InstanceType(i: Instance): (r: Result<Option<Json>, Fault>)
    ensures ReadsAttribute(r, i, "type")
  {
    var a :- Attributes(i);
    Field(a, "type")
  }

  function Uri(i: Instance): (r: Result<Option<Json>, Fault>)
    ensures ReadsAttribute(r, i, "uri")
  {
    var a :- Attributes(i);
    Field(a, "uri")
  }

  /** `stats`: `None` exactly when the stats object carries a non-null
      `error`; a missing `stats` wraps an empty object; a `stats` that is not
      a dict (null included) raises on its `.get`. */
  function Stats(i: Instance): (r: Result<Option<InstanceStats>, Fault>)
    ensures Attributes(i).Failure? ==> r == Failure(Attributes(i).error)
    ensures Attributes(i).Success? && !Attributes(i).value.Obj? ==> r == Failure(AttributeError("get"))
    ensures Attributes(i).Success? && Attributes(i).value.Obj? && !HasKey(Attributes(i).value.entries, "stats") ==>
      r == Success(Some(InstanceStats(EmptyObject)))
    ensures Attributes(i).Success? && Attributes(i).value.Obj? && HasKey(Attributes(i).value.entries, "stats") ==>
      var s := Lookup(Attributes(i).value.entries, "stats").value;
      && (!s.Obj? ==> r == Failure(AttributeError("get")))
      && (s.Obj? ==> (r == Success(None) <==> HasKey(s.entries, "error") && Lookup(s.entries, "error") != Some(Null)))
      && (s.Obj? && r != Success(None) ==> r == Success(Some(InstanceStats(s))))
  {
    var a :- Attributes(i);
    var s :- GetOr(a, "stats", EmptyObject);
    var error :- GetOr(s, "error", Null);
    if error != Null then Success(None) else Success(Some(InstanceStats(s)))
  }

  /** `monitor`: `None` exactly when the key is missing or null; otherwise a
      view over the value unchanged. */
  function MonitorOf(i: Instance): (r: Result<Option<Monitor>, Fault>)
    ensures Attributes(i).Failure? ==> r == Failure(Attributes(i).error)
    ensures Attributes(i).Success? && !Attributes(i).value.Obj? ==> r == Failure(AttributeError("get"))
    ensures Attributes(i).Success? && Attributes(i).value.Obj? ==>
      var es := Attributes(i).value.entries;
      && r.Success?
      && (r.value.None? <==> !HasKey(es, "monitor") || Lookup(es, "monitor") == Some(Null))
      && (r.value.Some? ==> Lookup(es, "monitor") == Some(r.value.value.data))
  {
    var a :- Attributes(i);
    var raw :- GetOr(a, "monitor", Null);
    if raw != Null then Success(Some(Monitor(raw))) else Success(None)
  }

  // InstanceStats accessors.

  function StatsVersion(s: InstanceStats): (r: Result<Option<Json>, Fault>)
    ensures ReadsKey(r, s.data, "version")
  {
    Field(s.data, "version")
  }

  function SoftwareName(s: InstanceStats): (r: Result<Option<Json>, Fault>)
    ensures ReadsNested(r, s.data, "software", "name")
  {
    NestedField(s.data, "software", "name")
  }

  function SoftwareVersion(s: InstanceStats): (r: Result<Option<Json>, Fault>)
    ensures ReadsNested(r, s.data, "software", "version")
  {
    NestedField(s.data, "software", "version")
  }

  function SoftwareBranch(s: InstanceStats): (r: Result<Option<Json>, Fault>)
    ensures ReadsNested(r, s.data, "software", "branch")
  {
    NestedField(s.data, "software", "branch")
  }

  function OpenRegistrations(s: InstanceStats): (r: Result<Option<Json>, Fault>)
    ensures ReadsKey(r, s.data, "openRegistrations")
  {
    Field(s.data, "openRegistrations")
  }

  /** `usage`: the usage object, an empty object when missing. */
  function Usage(s: InstanceStats): (r: Result<Json, Fault>)
    ensures !s.data.Obj? <==> r.Failure?
    ensures s.data.Obj? && !HasKey(s.data.entries, "usage") ==> r == Success(EmptyObject)
    ensures s.data.Obj? && HasKey(s.data.entries, "usage") ==> r == Success(Lookup(s.data.entries, "usage").value)
  {
    GetOr(s.data, "usage", EmptyObject)
  }

  /** A user counter `self.usage.get('users', {}).get(key)`. */
  predicate ReadsUserCounter(r: Result<Option<Json>, Fault>, s: InstanceStats, key: string) {
    match Usage(s)
    case Failure(e) => r == Failure(e)
    case Success(u) => ReadsNested(r, u, "users", key)
  }

  function TotalUsers(s: InstanceStats): (r: Result<Option<Json>, Fault>)
    ensures ReadsUserCounter(r, s, "total")
  {
    var u :- Usage(s);
    NestedField(u, "users", "total")
  }

  function UsersActiveHalfYear(s: InstanceStats): (r: Result<Option<Json>, Fault>)
    ensures ReadsUserCounter(r, s, "activeHalfyear")
  {
    var u :- Usage(s);
    NestedField(u, "users", "activeHalfyear")
  }

  function UsersActiveMonth(s: InstanceStats): (r: Result<Option<Json>, Fault>)
    ensures ReadsUserCounter(r, s, "activeMonth")
  {
    var u :- Usage(s);
    NestedField(u, "users", "activeMonth")
  }

  /** Stats without `usage` or without `users`, and without `software`: every
      counter and every software field is absent, and none raises. */
  lemma MissingStatsGroupsAreAbsent(s: InstanceStats)
    requires s.data.Obj?
    requires !HasKey(s.data.entries, "usage") ||
             (Lookup(s.data.entries, "usage").value.Obj? && !HasKey(Lookup(s.data.entries, "usage").value.entries, "users"))
    requires !HasKey(s.data.entries, "software")
    ensures TotalUsers(s) == Success(None)
    ensures UsersActiveHalfYear(s) == Success(None)
    ensures UsersActiveMonth(s) == Success(None)
    ensures SoftwareName(s) == Success(None)
    ensures SoftwareVersion(s) == Success(None)
    ensures SoftwareBranch(s) == Success(None)
  {
    if HasKey(s.data.entries, "usage") {
      assert Usage(s) == Success(Lookup(s.data.entries, "usage").value);
    } else {
      assert Usage(s) == Success(EmptyObject);
      assert !HasKey(EmptyObject.entries, "users");
    }
  }

  /** `metadata`: the metadata object, an empty object when missing. */
  function Metadata(s: InstanceStats): (r: Result<Json, Fault>)
    ensures !s.data.Obj? <==> r.Failure?
    ensures s.data.Obj? && !HasKey(s.data.entries, "metadata") ==> r == Success(EmptyObject)
    ensures s.data.Obj? && HasKey(s.data.entries, "metadata") ==> r == Success(Lookup(s.data.entries, "metadata").value)
  {
    GetOr(s.data, "metadata", EmptyObject)
  }

  /** `updated_at`: the date of the `updatedAt` epoch of `metadata`; it
      raises when the epoch is missing, `metadata` included. */
  function UpdatedAt(s: InstanceStats): (r: Result<int, Fault>)
    ensures ReadsNestedTimestamp(r, s.data, "metadata", "updatedAt")
  {
    NestedTimestampField(s.data, "metadata", "updatedAt")
  }

  /** `last_channel_refreshed_at`: the date of `lastChannelRefreshedAt`. */
  function LastChannelRefreshedAt(s: InstanceStats): (r: Result<int, Fault>)
    ensures ReadsNestedTimestamp(r, s.data, "metadata", "lastChannelRefreshedAt")
  {
    NestedTimestampField(s.data, "metadata", "lastChannelRefreshedAt")
  }

  // Monitor accessors.

  function MonitorId(m: Monitor): (r: Result<Option<Json>, Fault>)
    ensures ReadsKey(r, m.data, "monitorId")
  {
    Field(m.data, "monitorId")
  }

  /** `created_at`: the date of the `createdAt` epoch; a missing or null
      epoch raises. */
  function CreatedAt(m: Monitor): (r: Result<int, Fault>)
    ensures ReadsTimestamp(r, m.data, "createdAt")
  {
    TimestampField(m.data, "createdAt")
  }

  function StatusClass(m: Monitor): (r: Result<Option<Json>, Fault>)
    ensures ReadsKey(r, m.data, "statusClass")
  {
    Field(m.data, "statusClass")
  }

  function MonitorName(m: Monitor): (r: Result<Option<Json>, Fault>)
    ensures ReadsKey(r, m.data, "name")
  {
    Field(m.data, "name")
  }

  function MonitorUrl(m: Monitor): (r: Result<Option<Json>, Fault>)
    ensures ReadsKey(r, m.data, "url")
  {
    Field(m.data, "url")
  }

  function MonitorType(m: Monitor): (r: Result<Option<Json>, Fault>)
    ensures ReadsKey(r, m.data, "type")
  {
    Field(m.data, "type")
  }

  /** `daily_ratios`: one ratio view per `dailyRatios` element, in order; an
      empty list when the key is missing. */
  function DailyRatios(m: Monitor): (r: Result<seq<Ratio>, Fault>)
    ensures !m.data.Obj? ==> r == Failure(AttributeError("get"))
    ensures m.data.Obj? && !HasKey(m.data.entries, "dailyRatios") ==> r == Success([])
    ensures m.data.Obj? && HasKey(m.data.entries, "dailyRatios") ==>
      var raw := Lookup(m.data.entries, "dailyRatios").value;
      && (r.Failure? <==> Iterate(raw).Failure?)
      && (r.Failure? ==> r.error == Iterate(raw).error)
      && (r.Success? ==> |r.value| == |Iterate(raw).value| && forall k :: 0 <= k < |r.value| ==> r.value[k] == Ratio(Iterate(raw).value[k]))
  {
    var raw :- GetOr(m.data, "dailyRatios", Arr([]));
    var xs :- Iterate(raw);
    Success(MapAll(xs, x => Ratio(x)))
  }

  /** A ratio view over `data.get(key)`; the view wraps `None` when the key
      is missing. */
  predicate WrapsKey(r: Result<Ratio, Fault>, m: Monitor, key: string) {
    match m.data
    case Obj(es) => r == Success(Ratio(if HasKey(es, key) then Lookup(es, key).value else Null))
    case _ => r == Failure(AttributeError("get"))
  }

  /** `two_month_ratio`: the view over `90dRatio`. */
  function TwoMonthRatio(m: Monitor): (r: Result<Ratio, Fault>)
    ensures WrapsKey(r, m, "90dRatio")
  {
    var raw :- Get(m.data, "90dRatio");
    Success(Ratio(raw))
  }

  /** `month_ratio`: the view over `30dRatio`. */
  function MonthRatio(m: Monitor): (r: Result<Ratio, Fault>)
    ensures WrapsKey(r, m, "30dRatio")
  {
    var raw :- Get(m.data, "30dRatio");
    Success(Ratio(raw))
  }

  /** `ratio`: absent exactly when `ratio` is missing or null; otherwise the
      raw text the source hands to `float`. */
  function RatioValue(q: Ratio): (r: Result<Option<Json>, Fault>)
    ensures ReadsKey(r, q.data, "ratio")
  {
    var raw :- GetOr(q.data, "ratio", Null);
    if raw != Null then Success(Some(raw)) else Success(None)
  }

  function RatioLabel(q: Ratio): (r: Result<Option<Json>, Fault>)
    ensures ReadsKey(r, q.data, "label")
  {
    Field(q.data, "label")
  }

  // The directory.

  /** `instances`: one `Instance` per directory element, same length and order. */
  function InstanceViews(l: InstancesList): (r: Result<seq<Instance>, Fault>)
    ensures r.Failure? <==> Iterate(l.data).Failure?
    ensures r.Success? ==> |r.value| == |Iterate(l.data).value| && forall k :: 0 <= k < |r.value| ==> r.value[k] == Instance(Iterate(l.data).value[k])
    ensures l.data.Arr? ==> r.Success? && |r.value| == |l.data.items| && forall k :: 0 <= k < |r.value| ==> r.value[k].data == l.data.items[k]
  {
    var xs :- Iterate(l.data);
    Success(MapAll(xs, x => Instance(x)))
  }

  /** Iterating the list visits exactly the views of `instances`, in order. */
  function IterInstances(l: InstancesList): (r: Result<seq<Instance>, Fault>)
    ensures r.Failure? <==> Iterate(l.data).Failure?
    ensures l.data.Arr? ==> r.Success? && |r.value| == |l.data.items| && forall k :: 0 <= k < |r.value| ==> r.value[k].data == l.data.items[k]
  {
    InstanceViews(l)
  }

  /** `get_instances`: a GET of the directory with the given query
      parameters; the body becomes an `InstancesList`, an error propagates. */
  function GetInstances(server: Server, params: Option<Params>): (r: Result<InstancesList, Fault>)
    ensures server(Request(DirectoryUrl, params)).Failure? ==> r == Failure(server(Request(DirectoryUrl, params)).error)
    ensures server(Request(DirectoryUrl, params)).Success? ==> r == Success(InstancesList(server(Request(DirectoryUrl, params)).value))
  {
    var body :- server(Request(DirectoryUrl, params));
    Success(InstancesList(body))
  }
}
