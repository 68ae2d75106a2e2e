/**
 * `choose_instance` (invidious_api_client/models/instances.py): walk the
 * directory, sorted by health, and return the first instance that survives
 * the liveness probe and the onion filter.  The network is two oracles: the
 * directory GET (`Server`) and the probe HEAD (`Head`).  Every HEAD the walk
 * issues is recorded, so that the order of the checks can be stated.
 */
module Selection {
  import opened Wrappers
  import opened JsonValues
  import opened Http
  import opened Instances
  import opened Text

  /** The probe target: a fixed, publicly known video. */
  const ProbePath: string := "/api/v1/videos/dQw4w9WgXcQ"

  /** The directory is requested sorted by health. */
  const SortByHealth: Params := map["sort_by" := Str("health")]

  /** The outcome of a walk, the URLs it sent HEAD requests to, in order, and
      how many candidates it looked at. */
  datatype Selection = Selection(outcome: Result<Option<Instance>, Fault>, probed: seq<string>, examined: nat)

  /** `f"{instance.uri.strip('/')}/api/v1/videos/dQw4w9WgXcQ"`; a missing or
      non-string `uri` has no `strip` and raises. */
  function ProbeUrl(i: Instance): (r: Result<string, Fault>)
    ensures Uri(i).Failure? ==> r == Failure(Uri(i).error)
    ensures forall u :: Uri(i) == Success(Some(Str(u))) ==> r == Success(StripSlashes(u) + ProbePath)
    ensures Uri(i).Success? && !(Uri(i).value.Some? && Uri(i).value.value.Str?) ==> r == Failure(AttributeError("strip"))
  {
    var u :- Uri(i);
    match u
    case Some(Str(s)) => Success(StripSlashes(s) + ProbePath)
    case _ => Failure(AttributeError("strip"))
  }

  /** The first check of the loop: with `only_accessible`, the candidate
      passes when the HEAD answers 200.  Without it nothing is probed. */
  function ProbeStep(i: Instance, onlyAccessible: bool, head: Head): (r: Result<bool, Fault>)
    ensures !onlyAccessible ==> r == Success(true)
    ensures onlyAccessible && ProbeUrl(i).Failure? ==> r == Failure(ProbeUrl(i).error)
    ensures onlyAccessible && ProbeUrl(i).Success? ==>
      (r.Failure? <==> head(ProbeUrl(i).value).Failure?) &&
      (r == Success(true) <==> head(ProbeUrl(i).value) == Success(200))
  {
    if !onlyAccessible then Success(true)
    else
      var url :- ProbeUrl(i);
      var status :- head(url);
      Success(status == 200)
  }

  /** The second check: with `no_onions`, whether the candidate's type is `"onion"`. */
  function IsOnion(i: Instance, noOnions: bool): (r: Result<bool, Fault>)
    ensures !noOnions ==> r == Success(false)
    ensures noOnions ==> (r.Failure? <==> InstanceType(i).Failure?)
    ensures noOnions ==> (r == Success(true) <==> InstanceType(i) == Success(Some(Str("onion"))))
  {
    if !noOnions then Success(false)
    else
      var t :- InstanceType(i);
      Success(t == Some(Str("onion")))
  }

  /** The country test as written: the region is lower-cased, the preferred
      codes are not.  A region that is neither absent nor a string has no
      `lower` and raises. */
  function RegionPreferred(i: Instance, prefer: Option<seq<string>>): (r: Result<bool, Fault>)
    ensures prefer.None? ==> r == Success(false)
    ensures prefer.Some? && Region(i).Failure? ==> r == Failure(Region(i).error)
    ensures prefer.Some? && Region(i) == Success(None) ==> r == Success(false)
    ensures forall s :: prefer.Some? && Region(i) == Success(Some(Str(s))) ==> r == Success(Lower(s) in prefer.value)
  {
    if prefer.None? then Success(false)
    else
      var region :- Region(i);
      match region
      case None => Success(false)
      case Some(Str(s)) => Success(Lower(s) in prefer.value)
      case Some(_) => Failure(AttributeError("lower"))
  }

  /** A candidate the source would return if the walk reached it. */
  predicate Eligible(i: Instance, noOnions: bool, onlyAccessible: bool, head: Head) {
    && (onlyAccessible ==> ProbeUrl(i).Success? && head(ProbeUrl(i).value) == Success(200))
    && (noOnions ==> InstanceType(i).Success? && InstanceType(i).value != Some(Str("onion")))
  }

  /** The country test cannot raise: no preference, or a region that is a
      string or absent. */
  predicate RegionReadable(i: Instance, prefer: Option<seq<string>>) {
    prefer.Some? ==> Region(i).Success? && (Region(i).value.None? || Region(i).value.value.Str?)
  }

  /** A candidate none of whose checks can raise: a well-formed entry with a
      string `uri` the probe answers (when probing) and a readable region. */
  predicate Readable(i: Instance, prefer: Option<seq<string>>, onlyAccessible: bool, head: Head) {
    && WellFormed(i)
    && (onlyAccessible ==> ProbeUrl(i).Success? && head(ProbeUrl(i).value).Success?)
    && RegionReadable(i, prefer)
  }

  /** The first two checks of the loop body, the probe and then the onion
      filter: `Success(true)` when the candidate survives both. */
  function Survives(i: Instance, noOnions: bool, onlyAccessible: bool, head: Head): (r: Result<bool, Fault>)
    ensures r == Success(true) <==> Eligible(i, noOnions, onlyAccessible, head)
    ensures r.Success? ==> ProbeStep(i, onlyAccessible, head).Success?
    ensures r.Failure? ==> !Readable(i, None, onlyAccessible, head)
  {
    var passes :- ProbeStep(i, onlyAccessible, head);
    if !passes then Success(false)
    else
      var onion :- IsOnion(i, noOnions);
      Success(!onion)
  }

  /** One pass of the loop body: `Success(true)` when the candidate is
      returned, `Success(false)` when it is skipped.  After the probe and the
      onion filter comes the country test, whose two branches both return the
      candidate: it can raise, but never changes the verdict. */
  function Check(i: Instance, prefer: Option<seq<string>>, noOnions: bool, onlyAccessible: bool, head: Head): (r: Result<bool, Fault>)
    ensures r.Success? ==> r == Survives(i, noOnions, onlyAccessible, head)
    ensures RegionReadable(i, prefer) ==> r == Survives(i, noOnions, onlyAccessible, head)
    ensures Survives(i, noOnions, onlyAccessible, head) == Success(true) && !RegionReadable(i, prefer) ==> r.Failure?
    ensures r.Failure? ==> !Readable(i, prefer, onlyAccessible, head)
  {
    var keep :- Survives(i, noOnions, onlyAccessible, head);
    if !keep then Success(false)
    else
      var _ :- RegionPreferred(i, prefer);
      Success(true)
  }

  /** The HEAD request the loop body sends for a candidate, if any. */
  function ProbedBy(i: Instance, onlyAccessible: bool): (r: seq<string>)
    ensures !onlyAccessible ==> r == []
    ensures onlyAccessible && ProbeUrl(i).Success? ==> r == [ProbeUrl(i).value]
    ensures onlyAccessible && ProbeUrl(i).Failure? ==> r == []
  {
    if onlyAccessible && ProbeUrl(i).Success? then [ProbeUrl(i).value] else []
  }

  /** The loop body's verdict on a candidate: kept, skipped, or raised. */
  type Verdict = Instance -> Result<bool, Fault>

  /** The first-match walk: the first candidate the verdict keeps is
      returned, a raise ends the walk, and nothing is returned when every
      candidate is skipped.  The probes each examined candidate caused are
      recorded in order. */
  function ScanWith(cands: seq<Instance>, check: Verdict, probe: Instance -> seq<string>): (s: Selection)
    ensures s.examined <= |cands|
    ensures s.outcome != Success(None) ==> 1 <= s.examined
    ensures forall k :: 0 <= k < s.examined - 1 ==> check(cands[k]) == Success(false)
    ensures s.outcome.Success? && s.outcome.value.Some? ==>
      s.outcome.value.value == cands[s.examined - 1] && check(cands[s.examined - 1]) == Success(true)
    ensures s.outcome == Success(None) ==>
      s.examined == |cands| && forall k :: 0 <= k < |cands| ==> check(cands[k]) == Success(false)
    ensures s.outcome.Failure? ==> check(cands[s.examined - 1]) == Failure(s.outcome.error)
    ensures s.outcome.Success? ==> forall k :: 0 <= k < s.examined ==> check(cands[k]).Success?
    decreases |cands|
  {
    if |cands| == 0 then Selection(Success(None), [], 0)
    else
      var i := cands[0];
      match check(i)
      case Failure(e) => Selection(Failure(e), probe(i), 1)
      case Success(true) => Selection(Success(Some(i)), probe(i), 1)
      case Success(false) =>
        var rest := ScanWith(cands[1..], check, probe);
        Selection(rest.outcome, probe(i) + rest.probed, rest.examined + 1)
  }

  /** The probes of the candidates, concatenated in order. */
  function ProbesOf(cands: seq<Instance>, probe: Instance -> seq<string>): seq<string>
    decreases |cands|
  {
    if |cands| == 0 then [] else probe(cands[0]) + ProbesOf(cands[1..], probe)
  }

  /** No probes from candidates that each probe nothing. */
  lemma {:induction false} ProbesOfNone(xs: seq<Instance>, probe: Instance -> seq<string>)
    requires forall k :: 0 <= k < |xs| ==> probe(xs[k]) == []
    ensures ProbesOf(xs, probe) == []
    decreases |xs|
  {
    if |xs| > 0 {
      assert forall k :: 0 <= k < |xs| - 1 ==> xs[1..][k] == xs[k + 1];
      ProbesOfNone(xs[1..], probe);
    }
  }

  /** One probe per candidate, in order, from candidates that each probe
      once. */
  lemma {:induction false} ProbesOfSingles(xs: seq<Instance>, probe: Instance -> seq<string>)
    requires forall k :: 0 <= k < |xs| ==> |probe(xs[k])| == 1
    ensures |ProbesOf(xs, probe)| == |xs|
    ensures forall k :: 0 <= k < |xs| ==> ProbesOf(xs, probe)[k] == probe(xs[k])[0]
    decreases |xs|
  {
    if |xs| > 0 {
      assert forall k :: 0 <= k < |xs| - 1 ==> xs[1..][k] == xs[k + 1];
      ProbesOfSingles(xs[1..], probe);
      var r := ProbesOf(xs, probe);
      forall k | 0 <= k < |xs|
        ensures r[k] == probe(xs[k])[0]
      {
        if k > 0 {
          assert r[k] == ProbesOf(xs[1..], probe)[k - 1];
        }
      }
    }
  }

  /** The probes of a walk are those of the candidates it examined,
      concatenated in order. */
  lemma {:induction false} ScanProbesConcat(cands: seq<Instance>, check: Verdict, probe: Instance -> seq<string>)
    ensures var s := ScanWith(cands, check, probe);
      s.probed == ProbesOf(cands[..s.examined], probe)
    decreases |cands|
  {
    if |cands| > 0 && check(cands[0]) != Success(false) {
      assert cands[..1][1..] == [];
    }
    if |cands| > 0 && check(cands[0]) == Success(false) {
      ScanProbesConcat(cands[1..], check, probe);
      var s := ScanWith(cands, check, probe);
      var rest := ScanWith(cands[1..], check, probe);
      assert cands[..s.examined][1..] == cands[1..][..rest.examined];
    }
  }

  /** The probes of a walk are those of the candidates it examined, in order:
      in particular none when no candidate probes, and one per candidate when
      each probes once. */
  lemma ScanProbes(cands: seq<Instance>, check: Verdict, probe: Instance -> seq<string>)
    ensures var s := ScanWith(cands, check, probe);
      s.probed == ProbesOf(cands[..s.examined], probe)
    ensures var s := ScanWith(cands, check, probe);
      (forall k :: 0 <= k < s.examined ==> probe(cands[k]) == []) ==> s.probed == []
    ensures var s := ScanWith(cands, check, probe);
      (forall k :: 0 <= k < s.examined ==> |probe(cands[k])| == 1) ==>
        |s.probed| == s.examined && forall k :: 0 <= k < s.examined ==> s.probed[k] == probe(cands[k])[0]
  {
    ScanProbesConcat(cands, check, probe);
    var s := ScanWith(cands, check, probe);
    var xs := cands[..s.examined];
    if forall k :: 0 <= k < s.examined ==> probe(cands[k]) == [] {
      ProbesOfNone(xs, probe);
    }
    if forall k :: 0 <= k < s.examined ==> |probe(cands[k])| == 1 {
      ProbesOfSingles(xs, probe);
    }
  }

  /** Two verdicts that agree wherever the first does not raise give the
      same walk, provided the first walk does not raise. */
  lemma {:induction false} ScanAgreesOnSuccess(cands: seq<Instance>, c1: Verdict, c2: Verdict, probe: Instance -> seq<string>)
    requires ScanWith(cands, c1, probe).outcome.Success?
    requires forall k :: 0 <= k < |cands| && c1(cands[k]).Success? ==> c2(cands[k]) == c1(cands[k])
    ensures ScanWith(cands, c1, probe) == ScanWith(cands, c2, probe)
    decreases |cands|
  {
    if |cands| > 0 && c1(cands[0]) == Success(false) {
      assert forall k :: 0 <= k < |cands| - 1 ==> cands[1..][k] == cands[k + 1];
      ScanAgreesOnSuccess(cands[1..], c1, c2, probe);
    }
  }

  /** Two verdicts that agree on every candidate give the same walk. */
  lemma {:induction false} ScanPointwise(cands: seq<Instance>, c1: Verdict, c2: Verdict, probe: Instance -> seq<string>)
    requires forall k :: 0 <= k < |cands| ==> c2(cands[k]) == c1(cands[k])
    ensures ScanWith(cands, c1, probe) == ScanWith(cands, c2, probe)
    decreases |cands|
  {
    if |cands| > 0 {
      assert forall k :: 0 <= k < |cands| - 1 ==> cands[1..][k] == cands[k + 1];
      ScanPointwise(cands[1..], c1, c2, probe);
    }
  }

  /** The loop body of `choose_instance` as a verdict. */
  function CheckOf(prefer: Option<seq<string>>, noOnions: bool, onlyAccessible: bool, head: Head): Verdict {
    i => Check(i, prefer, noOnions, onlyAccessible, head)
  }

  function ProbeOf(onlyAccessible: bool): Instance -> seq<string> {
    i => ProbedBy(i, onlyAccessible)
  }

  /** The loop of `choose_instance` over the candidates, in order: every
      candidate before the one it stops at was skipped by the loop body, and
      the walk ends with that candidate's result or error. */
  function Scan(cands: seq<Instance>, prefer: Option<seq<string>>, noOnions: bool, onlyAccessible: bool, head: Head): (s: Selection)
    ensures s.examined <= |cands|
    ensures forall k :: 0 <= k < s.examined - 1 ==> Check(cands[k], prefer, noOnions, onlyAccessible, head) == Success(false)
    ensures s.outcome.Success? && s.outcome.value.Some? ==>
      1 <= s.examined && s.outcome.value.value == cands[s.examined - 1]
      && Check(cands[s.examined - 1], prefer, noOnions, onlyAccessible, head) == Success(true)
    ensures s.outcome == Success(None) ==>
      s.examined == |cands| && forall k :: 0 <= k < |cands| ==> Check(cands[k], prefer, noOnions, onlyAccessible, head) == Success(false)
    ensures s.outcome.Failure? ==>
      1 <= s.examined && Check(cands[s.examined - 1], prefer, noOnions, onlyAccessible, head) == Failure(s.outcome.error)
  {
    ScanWith(cands, CheckOf(prefer, noOnions, onlyAccessible, head), ProbeOf(onlyAccessible))
  }

  /** A walk over `cands` that returns the first eligible candidate, and
      nothing only when none is eligible; when it raises, the candidate it
      stopped at is one whose checks can raise. */
  predicate FirstEligibleWalk(s: Selection, cands: seq<Instance>, prefer: Option<seq<string>>, noOnions: bool, onlyAccessible: bool, head: Head) {
    && s.examined <= |cands|
    && (s.outcome.Success? && s.outcome.value.Some? ==>
          && 1 <= s.examined
          && s.outcome.value.value == cands[s.examined - 1]
          && Eligible(cands[s.examined - 1], noOnions, onlyAccessible, head)
          && forall k :: 0 <= k < s.examined - 1 ==> !Eligible(cands[k], noOnions, onlyAccessible, head))
    && (s.outcome == Success(None) ==> forall k :: 0 <= k < |cands| ==> !Eligible(cands[k], noOnions, onlyAccessible, head))
    && (s.outcome.Failure? ==> 1 <= s.examined && !Readable(cands[s.examined - 1], prefer, onlyAccessible, head))
  }

  /** The walk returns the first eligible candidate, and nothing only when
      none is eligible; when it raises, the candidate it stopped at is one
      whose checks can raise. */
  lemma {:induction false} ScanFindsFirstEligible(cands: seq<Instance>, prefer: Option<seq<string>>, noOnions: bool, onlyAccessible: bool, head: Head)
    ensures FirstEligibleWalk(Scan(cands, prefer, noOnions, onlyAccessible, head), cands, prefer, noOnions, onlyAccessible, head)
  {
    var check := CheckOf(prefer, noOnions, onlyAccessible, head);
    forall k | 0 <= k < |cands| && check(cands[k]).Success?
      ensures check(cands[k]) == Success(true) <==> Eligible(cands[k], noOnions, onlyAccessible, head)
    {
      assert check(cands[k]) == Survives(cands[k], noOnions, onlyAccessible, head);
    }
  }

  /** With `only_accessible`, a walk that does not raise has probed every
      candidate it examined, in order, the returned one included and onion
      instances included: the probe precedes the onion filter.  Without it,
      nothing is probed. */
  lemma {:induction false} ProbesPrecedeOnionFilter(cands: seq<Instance>, prefer: Option<seq<string>>, noOnions: bool, onlyAccessible: bool, head: Head)
    ensures !onlyAccessible ==> Scan(cands, prefer, noOnions, onlyAccessible, head).probed == []
    ensures var s := Scan(cands, prefer, noOnions, onlyAccessible, head);
      onlyAccessible && s.outcome.Success? ==>
        && |s.probed| == s.examined
        && forall k :: 0 <= k < s.examined ==> ProbeUrl(cands[k]).Success? && s.probed[k] == ProbeUrl(cands[k]).value
  {
    var check := CheckOf(prefer, noOnions, onlyAccessible, head);
    var probe := ProbeOf(onlyAccessible);
    var s := Scan(cands, prefer, noOnions, onlyAccessible, head);
    ScanProbes(cands, check, probe);
    if onlyAccessible && s.outcome.Success? {
      forall k | 0 <= k < s.examined
        ensures ProbeUrl(cands[k]).Success? && probe(cands[k]) == [ProbeUrl(cands[k]).value]
      {
        ProbedOnce(cands[k], prefer, noOnions, head);
      }
    }
  }

  /** A probing loop body that does not raise has sent one HEAD request, to
      the candidate's probe URL. */
  lemma ProbedOnce(i: Instance, prefer: Option<seq<string>>, noOnions: bool, head: Head)
    requires CheckOf(prefer, noOnions, true, head)(i).Success?
    ensures ProbeUrl(i).Success? && ProbeOf(true)(i) == [ProbeUrl(i).value]
  {
    assert Survives(i, noOnions, true, head).Success?;
  }

  /** The candidates of `choose_instance`: the public directory requested
      sorted by health, one view per element, in order.  A failing request and
      a body that cannot be iterated raise. */
  function Directory(server: Server): (r: Result<seq<Instance>, Fault>)
    ensures var answer := server(Request(DirectoryUrl, Some(SortByHealth)));
      && (answer.Failure? ==> r == Failure(answer.error))
      && (answer.Success? ==> (r.Failure? <==> Iterate(answer.value).Failure?))
      && (answer.Success? && answer.value.Arr? ==>
            r.Success? && |r.value| == |answer.value.items| && forall k :: 0 <= k < |r.value| ==> r.value[k].data == answer.value.items[k])
  {
    var l :- GetInstances(server, Some(SortByHealth));
    InstanceViews(l)
  }

  /** `choose_instance`: the first eligible candidate of the directory, in
      directory order, or `None` when none is eligible; a raise while reading
      the directory stops before any probe, and a raise in the walk stops at a
      candidate whose checks can raise. */
  function ChooseInstance(server: Server, head: Head, prefer: Option<seq<string>>, noOnions: bool, onlyAccessible: bool): (s: Selection)
    ensures Directory(server).Failure? ==> s == Selection(Failure(Directory(server).error), [], 0)
    ensures Directory(server).Success? ==>
      FirstEligibleWalk(s, Directory(server).value, prefer, noOnions, onlyAccessible, head)
  {
    match Directory(server)
    case Failure(e) => Selection(Failure(e), [], 0)
    case Success(cands) =>
      ScanFindsFirstEligible(cands, prefer, noOnions, onlyAccessible, head);
      Scan(cands, prefer, noOnions, onlyAccessible, head)
  }

  /** The country preference never changes a `choose_instance` call that
      does not raise. */
  lemma {:induction false} ChoosePreferenceIgnored(server: Server, head: Head, codes: seq<string>, noOnions: bool, onlyAccessible: bool)
    ensures ChooseInstance(server, head, Some(codes), noOnions, onlyAccessible).outcome.Success? ==>
      ChooseInstance(server, head, Some(codes), noOnions, onlyAccessible) == ChooseInstance(server, head, None, noOnions, onlyAccessible)
  {
    if Directory(server).Success? && ChooseInstance(server, head, Some(codes), noOnions, onlyAccessible).outcome.Success? {
      PreferenceIgnored(Directory(server).value, codes, noOnions, onlyAccessible, head);
    }
  }

  /** When no candidate can make a check raise, the walk does not raise: it
      returns the first eligible candidate, or nothing when none is. */
  lemma {:induction false} ReadableWalkSucceeds(cands: seq<Instance>, prefer: Option<seq<string>>, noOnions: bool, onlyAccessible: bool, head: Head)
    requires forall k :: 0 <= k < |cands| ==> Readable(cands[k], prefer, onlyAccessible, head)
    ensures Scan(cands, prefer, noOnions, onlyAccessible, head).outcome.Success?
    ensures Scan(cands, prefer, noOnions, onlyAccessible, head).outcome == Success(None) <==>
      forall k :: 0 <= k < |cands| ==> !Eligible(cands[k], noOnions, onlyAccessible, head)
  {
    ScanFindsFirstEligible(cands, prefer, noOnions, onlyAccessible, head);
  }

  /** The country preference never changes a successful walk: with or
      without it the same candidate is returned after the same probes. */
  lemma {:induction false} PreferenceIgnored(cands: seq<Instance>, codes: seq<string>, noOnions: bool, onlyAccessible: bool, head: Head)
    requires Scan(cands, Some(codes), noOnions, onlyAccessible, head).outcome.Success?
    ensures Scan(cands, Some(codes), noOnions, onlyAccessible, head) == Scan(cands, None, noOnions, onlyAccessible, head)
  {
    var withCodes := CheckOf(Some(codes), noOnions, onlyAccessible, head);
    var without := CheckOf(None, noOnions, onlyAccessible, head);
    forall k | 0 <= k < |cands| && withCodes(cands[k]).Success?
      ensures without(cands[k]) == withCodes(cands[k])
    {
      assert without(cands[k]) == Survives(cands[k], noOnions, onlyAccessible, head);
    }
    ScanAgreesOnSuccess(cands, withCodes, without, ProbeOf(onlyAccessible));
  }

  /** With regions that are strings or absent, the preference has no
      observable effect at all. */
  lemma {:induction false} PreferenceIrrelevant(cands: seq<Instance>, codes: seq<string>, noOnions: bool, onlyAccessible: bool, head: Head)
    requires forall k :: 0 <= k < |cands| ==> RegionReadable(cands[k], Some(codes))
    ensures Scan(cands, Some(codes), noOnions, onlyAccessible, head) == Scan(cands, None, noOnions, onlyAccessible, head)
  {
    var withCodes := CheckOf(Some(codes), noOnions, onlyAccessible, head);
    var without := CheckOf(None, noOnions, onlyAccessible, head);
    forall k | 0 <= k < |cands|
      ensures without(cands[k]) == withCodes(cands[k])
    {
      assert without(cands[k]) == Survives(cands[k], noOnions, onlyAccessible, head);
      assert withCodes(cands[k]) == Survives(cands[k], noOnions, onlyAccessible, head);
    }
    ScanPointwise(cands, withCodes, without, ProbeOf(onlyAccessible));
  }

  // The corrected selection: prefer a surviving candidate in a preferred
  // country, compared case-insensitively, else the first survivor.

  /** The eligible candidates, in directory order. */
  function EligibleOnly(cands: seq<Instance>, noOnions: bool, onlyAccessible: bool, head: Head): seq<Instance>
    decreases |cands|
  {
    if |cands| == 0 then []
    else (if Eligible(cands[0], noOnions, onlyAccessible, head) then [cands[0]] else [])
         + EligibleOnly(cands[1..], noOnions, onlyAccessible, head)
  }

  /** The candidates that survive the probe and the onion filter, checked in
      the source's order; a raising check propagates. */
  function Survivors(cands: seq<Instance>, noOnions: bool, onlyAccessible: bool, head: Head): (r: Result<seq<Instance>, Fault>)
    ensures r.Success? ==> r.value == EligibleOnly(cands, noOnions, onlyAccessible, head)
    decreases |cands|
  {
    if |cands| == 0 then Success([])
    else
      var keep :- Survives(cands[0], noOnions, onlyAccessible, head);
      var rest :- Survivors(cands[1..], noOnions, onlyAccessible, head);
      if keep then Success([cands[0]] + rest) else Success(rest)
  }

  /** A region in one of the codes, ignoring case on both sides. */
  predicate Matches(i: Instance, codes: seq<string>) {
    && Region(i).Success? && Region(i).value.Some? && Region(i).value.value.Str?
    && exists c :: c in codes && Lower(c) == Lower(Region(i).value.value.s)
  }

  /** The corrected country test. */
  function RegionMatches(i: Instance, codes: seq<string>): (r: Result<bool, Fault>)
    ensures r == Success(true) <==> Matches(i, codes)
    ensures r.Failure? <==> Region(i).Failure? || (Region(i).value.Some? && !Region(i).value.value.Str?)
  {
    var region :- Region(i);
    match region
    case None => Success(false)
    case Some(Str(s)) => Success(exists c | c in codes :: Lower(c) == Lower(s))
    case Some(_) => Failure(AttributeError("lower"))
  }

  /** The position of the first candidate at or after `from` in a preferred
      country. */
  function FirstMatchFrom(ss: seq<Instance>, codes: seq<string>, from: nat): (r: Result<Option<nat>, Fault>)
    requires from <= |ss|
    ensures forall j :: r == Success(Some(j)) ==>
      from <= j < |ss| && Matches(ss[j], codes) && forall k :: from <= k < j ==> !Matches(ss[k], codes)
    ensures r == Success(None) ==> forall k :: from <= k < |ss| ==> !Matches(ss[k], codes)
    decreases |ss| - from
  {
    if from == |ss| then Success(None)
    else
      var here :- RegionMatches(ss[from], codes);
      if here then Success(Some(from)) else FirstMatchFrom(ss, codes, from + 1)
  }

  /** Position `j` is the one the corrected preference picks: no earlier
      candidate matches, and `j` matches unless none does, in which case it is
      the first. */
  predicate FirstPreferred(ss: seq<Instance>, codes: seq<string>, j: nat) {
    && j < |ss|
    && (forall k :: 0 <= k < j ==> !Matches(ss[k], codes))
    && (Matches(ss[j], codes) || (j == 0 && forall k :: 0 <= k < |ss| ==> !Matches(ss[k], codes)))
  }

  /** The position of the first candidate in a preferred country, or the
      first position when there is none. */
  function PreferredIndex(ss: seq<Instance>, codes: seq<string>): (r: Result<nat, Fault>)
    requires |ss| > 0
    ensures r.Success? ==> FirstPreferred(ss, codes, r.value)
  {
    var m :- FirstMatchFrom(ss, codes, 0);
    if m.Some? then Success(m.value) else Success(0)
  }

  /** Selection as the preference evidently intends it. */
  function ChoosePreferred(cands: seq<Instance>, prefer: Option<seq<string>>, noOnions: bool, onlyAccessible: bool, head: Head): (r: Result<Option<Instance>, Fault>)
    ensures r.Success? ==> (r.value.None? <==> EligibleOnly(cands, noOnions, onlyAccessible, head) == [])
    ensures r.Success? && r.value.Some? ==>
      var survivors := EligibleOnly(cands, noOnions, onlyAccessible, head);
      && r.value.value in survivors
      && (prefer.Some? ==> exists j: nat :: FirstPreferred(survivors, prefer.value, j) && r.value.value == survivors[j])
      && (prefer.None? ==> r.value.value == survivors[0])
      && (prefer.Some? && (exists k :: 0 <= k < |survivors| && Matches(survivors[k], prefer.value)) ==>
            Matches(r.value.value, prefer.value))
      && (prefer.Some? && (forall k :: 0 <= k < |survivors| ==> !Matches(survivors[k], prefer.value)) ==>
            r.value.value == survivors[0])
  {
    var survivors :- Survivors(cands, noOnions, onlyAccessible, head);
    if |survivors| == 0 then Success(None)
    else if prefer.None? then Success(Some(survivors[0]))
    else
      var j :- PreferredIndex(survivors, prefer.value);
      Success(Some(survivors[j]))
  }

  /** Without a preference, the corrected selection returns what the walk
      as written returns. */
  lemma {:induction false} NoPreferenceAgrees(cands: seq<Instance>, noOnions: bool, onlyAccessible: bool, head: Head)
    requires Survivors(cands, noOnions, onlyAccessible, head).Success?
    ensures ChoosePreferred(cands, None, noOnions, onlyAccessible, head) == Scan(cands, None, noOnions, onlyAccessible, head).outcome
    decreases |cands|
  {
    if |cands| > 0 {
      var keep := Survives(cands[0], noOnions, onlyAccessible, head);
      assert CheckOf(None, noOnions, onlyAccessible, head)(cands[0]) == keep;
      if keep == Success(false) {
        NoPreferenceAgrees(cands[1..], noOnions, onlyAccessible, head);
        assert Survivors(cands, noOnions, onlyAccessible, head) == Survivors(cands[1..], noOnions, onlyAccessible, head);
      }
    }
  }

  // The scenario of a two-entry directory: "a.example" first, "b.example" in
  // the preferred country second; nothing probed, onions excluded.

  function ScenarioA(): Instance {
    Instance(Arr([Str("a.example"), Obj([("type", Str("https")), ("region", Str("US")), ("stats", Obj([("error", Str("x"))]))])]))
  }

  function ScenarioB(): Instance {
    Instance(Arr([Str("b.example"), Obj([("type", Str("https")), ("region", Str("NL"))])]))
  }

  /** The attributes of the first scenario entry, read through the views. */
  lemma ScenarioAReads()
    ensures InstanceType(ScenarioA()) == Success(Some(Str("https")))
    ensures Region(ScenarioA()) == Success(Some(Str("US")))
  {
    var a := ScenarioA();
    assert WellFormed(a);
    assert Lookup(a.data.items[1].entries, "type") == Some(Str("https"));
    assert Lookup(a.data.items[1].entries, "region") == Some(Str("US"));
  }

  /** The first scenario entry reports an error, so its stats are absent. */
  lemma ScenarioAStats()
    ensures Stats(ScenarioA()) == Success(None)
  {
    var a := ScenarioA();
    assert WellFormed(a);
    assert Lookup(a.data.items[1].entries, "stats") == Some(Obj([("error", Str("x"))]));
    assert Lookup(Obj([("error", Str("x"))]).entries, "error") == Some(Str("x"));
  }

  /** The attributes of the second scenario entry, read through the views. */
  lemma ScenarioBReads()
    ensures InstanceType(ScenarioB()) == Success(Some(Str("https")))
    ensures Region(ScenarioB()) == Success(Some(Str("NL")))
  {
    var b := ScenarioB();
    assert WellFormed(b);
    assert Lookup(b.data.items[1].entries, "type") == Some(Str("https"));
    assert Lookup(b.data.items[1].entries, "region") == Some(Str("NL"));
  }

  /** Both scenario entries survive the onion filter when nothing is probed. */
  lemma ScenarioEntriesSurvive(head: Head)
    ensures Survives(ScenarioA(), true, false, head) == Success(true)
    ensures Survives(ScenarioB(), true, false, head) == Success(true)
  {
    ScenarioAReads();
    ScenarioBReads();
  }

  /** As written, the first survivor is returned although the second is in
      the preferred country; its stats are absent because of `error`. */
  lemma PreferenceScenario(head: Head)
    ensures Scan([ScenarioA(), ScenarioB()], Some(["nl"]), true, false, head).outcome == Success(Some(ScenarioA()))
    ensures Stats(ScenarioA()) == Success(None)
  {
    ScenarioAReads();
    ScenarioAStats();
    ScenarioEntriesSurvive(head);
    assert RegionReadable(ScenarioA(), Some(["nl"]));
    assert CheckOf(Some(["nl"]), true, false, head)(ScenarioA()) == Success(true);
  }

  /** Both scenario entries survive when nothing is probed. */
  lemma ScenarioSurvivors(head: Head)
    ensures Survivors([ScenarioA(), ScenarioB()], true, false, head) == Success([ScenarioA(), ScenarioB()])
  {
    var a, b := ScenarioA(), ScenarioB();
    ScenarioEntriesSurvive(head);
    assert [a, b][1..] == [b] && [b][1..] == [];
    assert Survivors([], true, false, head) == Success([]);
    assert [b] + [] == [b];
    assert Survivors([b], true, false, head) == Success([b]);
    assert [a] + [b] == [a, b];
  }

  /** The case folding the scenario relies on. */
  lemma ScenarioCases()
    ensures Lower("US") == "us" && Lower("NL") == "nl" && Lower("nl") == "nl"
  {
    assert Lower("US")[0] == 'u' && Lower("US")[1] == 's';
    assert Lower("NL")[0] == 'n' && Lower("NL")[1] == 'l';
    assert Lower("nl")[0] == 'n' && Lower("nl")[1] == 'l';
  }

  /** Compared ignoring case, the first entry's region is not "nl"... */
  lemma ScenarioRegionA()
    ensures RegionMatches(ScenarioA(), ["nl"]) == Success(false)
  {
    ScenarioAReads();
    ScenarioCases();
    assert !exists c | c in ["nl"] :: Lower(c) == Lower("US") by {
      forall c | c in ["nl"] ensures Lower(c) != Lower("US") {
        assert c == "nl";
      }
    }
  }

  /** ...and the second entry's is. */
  lemma ScenarioRegionB()
    ensures RegionMatches(ScenarioB(), ["nl"]) == Success(true)
  {
    ScenarioBReads();
    ScenarioCases();
    assert "nl" in ["nl"];
  }

  /** Only the second scenario entry is in the preferred country. */
  lemma ScenarioMatches()
    ensures FirstMatchFrom([ScenarioA(), ScenarioB()], ["nl"], 0) == Success(Some(1))
  {
    ScenarioRegionA();
    ScenarioRegionB();
    assert FirstMatchFrom([ScenarioA(), ScenarioB()], ["nl"], 1) == Success(Some(1));
  }

  /** The corrected selection returns the entry in the preferred country. */
  lemma PreferredScenario(head: Head)
    ensures ChoosePreferred([ScenarioA(), ScenarioB()], Some(["nl"]), true, false, head) == Success(Some(ScenarioB()))
  {
    ScenarioSurvivors(head);
    ScenarioMatches();
  }

  /** A string with at least one upper-case ASCII letter. */
  predicate HasUpperCase(c: string) {
    exists k :: 0 <= k < |c| && 'A' <= c[k] <= 'Z'
  }

  /** As written, a code holding an upper-case letter never matches, whatever
      the region: the region is lower-cased and the codes are not. */
  lemma {:induction false} UpperCaseCodeNeverMatches(i: Instance, codes: seq<string>)
    ensures (forall c :: c in codes ==> HasUpperCase(c)) ==> RegionPreferred(i, Some(codes)) != Success(true)
  {
    if (forall c :: c in codes ==> HasUpperCase(c)) && Region(i).Success? && Region(i).value.Some? && Region(i).value.value.Str? {
      var s := Region(i).value.value.s;
      forall c | c in codes
        ensures c != Lower(s)
      {
        assert HasUpperCase(c);
        var k :| 0 <= k < |c| && 'A' <= c[k] <= 'Z';
        if k < |s| {
          assert Lower(s)[k] == LowerChar(s[k]);
        }
      }
    }
  }

  /** The upper-case code `NL` and the region `"NL"`: no match as written, a
      match with the corrected test. */
  lemma UpperCaseScenario()
    ensures RegionPreferred(ScenarioB(), Some(["NL"])) == Success(false)
    ensures RegionMatches(ScenarioB(), ["NL"]) == Success(true)
  {
    ScenarioBReads();
    ScenarioCases();
    assert "nl" != "NL";
  }
}
