/**
 * Decoded JSON values as the client sees them after `response.json()`, and the
 * handful of Python operations the view layer applies to them: `dict.get` with
 * and without a default, iteration in a list comprehension, integer
 * subscription, truthiness and f-string formatting.  Each of these raises on a
 * value of the wrong shape; the raise is a `Failure` carrying a `Fault`.
 */
module JsonValues {
  import opened Wrappers

  /** A decoded JSON value.  `Null` is Python's `None`.  An object keeps its
      entries in document order (iterating a Python dict yields its keys in that
      order).  A lookup takes the first entry with the key; Python's decoder
      keeps the last of repeated keys, and on the distinct keys of a decoded
      dict the two agree. */
  datatype Json =
    | Null
    | Bool(b: bool)
    | Num(n: int)
    | Str(s: string)
    | Arr(items: seq<Json>)
    | Obj(entries: seq<(string, Json)>)

  /** The Python exceptions the modelled code can raise. */
  datatype Fault =
    | AttributeError(attribute: string)  // the value has no such method, e.g. `.get` on a list or on None
    | TypeError                          // the value is not iterable, not subscriptable, or of the wrong type
    | IndexError                         // a list subscript out of range
    | KeyError                           // a dict subscript with a key it does not hold
    | Unmodelled                         // Python would format an object's repr, which the model does not spell out
    | RequestFailed(reason: string)      // raised by the transport: a connection error or an HTTP error status

  /** Query parameters of a request. */
  type Params = map<string, Json>

  /** The view of a missing field: an empty object, as in `d.get('usage', {})`. */
  const EmptyObject: Json := Obj([])

  predicate HasKey(es: seq<(string, Json)>, key: string) {
    exists i :: 0 <= i < |es| && es[i].0 == key
  }

  /** The value bound to `key`, taken from the first entry that binds it. */
  function Lookup(es: seq<(string, Json)>, key: string): (r: Option<Json>)
    ensures r.None? <==> !HasKey(es, key)
    ensures r.Some? ==> exists i :: 0 <= i < |es| && es[i] == (key, r.value) && forall j :: 0 <= j < i ==> es[j].0 != key
  {
    if |es| == 0 then None
    else if es[0].0 == key then Some(es[0].1)
    else
      var r := Lookup(es[1..], key);
      if r.Some? then
        var i :| 0 <= i < |es[1..]| && es[1..][i] == (key, r.value) && forall j :: 0 <= j < i ==> es[1..][j].0 != key;
        assert es[i + 1] == (key, r.value);
        r
      else
        assert forall i :: 1 <= i < |es| ==> es[i] == es[1..][i - 1];
        r
  }

  /** Python's `None` becomes `None`; any other value is present. */
  function AsOption(v: Json): (r: Option<Json>)
    ensures r.None? <==> v == Null
    ensures r.Some? ==> r.value == v
  {
    if v == Null then None else Some(v)
  }

  /** `v.get(key)`: the bound value or `None`; raises on anything but a dict. */
  function Get(v: Json, key: string): (r: Result<Json, Fault>)
    ensures !v.Obj? <==> r == Failure(AttributeError("get"))
    ensures v.Obj? && HasKey(v.entries, key) ==> r == Success(Lookup(v.entries, key).value)
    ensures v.Obj? && !HasKey(v.entries, key) ==> r == Success(Null)
  {
    match v
    case Obj(es) =>
      (match Lookup(es, key)
       case Some(x) => Success(x)
       case None => Success(Null))
    case _ => Failure(AttributeError("get"))
  }

  /** `v.get(key, default)`: the default is used only when the key is missing,
      not when it is bound to `None`. */
  function GetOr(v: Json, key: string, default: Json): (r: Result<Json, Fault>)
    ensures !v.Obj? <==> r == Failure(AttributeError("get"))
    ensures v.Obj? && HasKey(v.entries, key) ==> r == Success(Lookup(v.entries, key).value)
    ensures v.Obj? && !HasKey(v.entries, key) ==> r == Success(default)
  {
    match v
    case Obj(es) =>
      (match Lookup(es, key)
       case Some(x) => Success(x)
       case None => Success(default))
    case _ => Failure(AttributeError("get"))
  }

  /** What a caller of `v.get(key)` reads: nothing when the key is missing or
      bound to `None`, the bound value otherwise, and an `AttributeError` when
      `v` is not a dict. */
  predicate ReadsKey(r: Result<Option<Json>, Fault>, v: Json, key: string) {
    match v
    case Obj(es) =>
      && r.Success?
      && (r.value.None? <==> (!HasKey(es, key) || Lookup(es, key) == Some(Null)))
      && (r.value.Some? ==> Lookup(es, key) == r.value)
    case _ => r == Failure(AttributeError("get"))
  }

  /** A scalar accessor: `self.data.get(key)`. */
  function Field(v: Json, key: string): (r: Result<Option<Json>, Fault>)
    ensures ReadsKey(r, v, key)
  {
    var x :- Get(v, key);
    Success(AsOption(x))
  }

  /** A nested accessor with a default: `self.data.get(outer, {}).get(inner)`. */
  predicate ReadsNested(r: Result<Option<Json>, Fault>, v: Json, outer: string, inner: string) {
    match v
    case Obj(es) =>
      if HasKey(es, outer) then ReadsKey(r, Lookup(es, outer).value, inner)
      else r == Success(None)
    case _ => r == Failure(AttributeError("get"))
  }

  function NestedField(v: Json, outer: string, inner: string): (r: Result<Option<Json>, Fault>)
    ensures ReadsNested(r, v, outer, inner)
  {
    var o :- GetOr(v, outer, EmptyObject);
    Field(o, inner)
  }

  /** A value `datetime.fromtimestamp` accepts: an integer (a boolean is one
      in Python).  `None`, strings, lists and dicts raise a `TypeError`. */
  predicate IsTimestamp(x: Json) {
    x.Num? || x.Bool?
  }

  /** The seconds since the epoch a timestamp value stands for. */
  function Seconds(x: Json): int
    requires IsTimestamp(x)
  {
    if x.Num? then x.n else if x.b then 1 else 0
  }

  /** `datetime.fromtimestamp(x)`, the date kept as its seconds since the epoch. */
  function FromTimestamp(x: Json): (r: Result<int, Fault>)
    ensures r.Success? <==> IsTimestamp(x)
    ensures r.Failure? ==> r.error == TypeError
  {
    if IsTimestamp(x) then Success(Seconds(x)) else Failure(TypeError)
  }

  /** What `datetime.fromtimestamp(v.get(key))` evaluates to: the date of a
      numeric value; a `TypeError` when the key is missing or bound to
      anything else (`None` included); an `AttributeError` when `v` is not a
      dict. */
  predicate ReadsTimestamp(r: Result<int, Fault>, v: Json, key: string) {
    match v
    case Obj(es) =>
      if HasKey(es, key) && IsTimestamp(Lookup(es, key).value) then r == Success(Seconds(Lookup(es, key).value))
      else r == Failure(TypeError)
    case _ => r == Failure(AttributeError("get"))
  }

  function TimestampField(v: Json, key: string): (r: Result<int, Fault>)
    ensures ReadsTimestamp(r, v, key)
  {
    var x :- Get(v, key);
    FromTimestamp(x)
  }

  /** `datetime.fromtimestamp(v.get(outer, {}).get(inner))`: a missing `outer`
      gives `{}`, whose missing `inner` raises a `TypeError`. */
  predicate ReadsNestedTimestamp(r: Result<int, Fault>, v: Json, outer: string, inner: string) {
    match v
    case Obj(es) =>
      if HasKey(es, outer) then ReadsTimestamp(r, Lookup(es, outer).value, inner)
      else r == Failure(TypeError)
    case _ => r == Failure(AttributeError("get"))
  }

  function NestedTimestampField(v: Json, outer: string, inner: string): (r: Result<int, Fault>)
    ensures ReadsNestedTimestamp(r, v, outer, inner)
  {
    var o :- GetOr(v, outer, EmptyObject);
    TimestampField(o, inner)
  }

  /** The items a `for x in v` loop visits: a list's elements, a string's
      characters, a dict's keys; `None`, booleans and numbers are not iterable. */
  function Iterate(v: Json): (r: Result<seq<Json>, Fault>)
    ensures v.Arr? ==> r == Success(v.items)
    ensures v.Str? ==> r.Success? && |r.value| == |v.s| && forall i :: 0 <= i < |v.s| ==> r.value[i] == Str([v.s[i]])
    ensures v.Obj? ==> r.Success? && |r.value| == |v.entries| && forall i :: 0 <= i < |v.entries| ==> r.value[i] == Str(v.entries[i].0)
    ensures (v.Null? || v.Bool? || v.Num?) <==> r == Failure(TypeError)
  {
    match v
    case Arr(items) => Success(items)
    case Str(s) => Success(seq(|s|, i requires 0 <= i < |s| => Str([s[i]])))
    case Obj(es) => Success(seq(|es|, i requires 0 <= i < |es| => Str(es[i].0)))
    case _ => Failure(TypeError)
  }

  /** What `[wrap(x) for x in self.data.get(key)]` evaluates to: one wrapped
      view per item, in order.  A missing key gives `None`, and iterating `None`
      raises a `TypeError`: there is no empty-list default. */
  predicate ListRead<V(==)>(r: Result<seq<V>, Fault>, v: Json, key: string, wrap: Json -> V) {
    match v
    case Obj(es) =>
      if !HasKey(es, key) then r == Failure(TypeError)
      else
        (match Iterate(Lookup(es, key).value)
         case Failure(e) => r == Failure(e)
         case Success(xs) => r.Success? && |r.value| == |xs| && forall i :: 0 <= i < |xs| ==> r.value[i] == wrap(xs[i]))
    case _ => r == Failure(AttributeError("get"))
  }

  /** `[wrap(x) for x in items]`. */
  function MapAll<V>(xs: seq<Json>, wrap: Json -> V): (r: seq<V>)
    ensures |r| == |xs|
    ensures forall i :: 0 <= i < |xs| ==> r[i] == wrap(xs[i])
  {
    seq(|xs|, i requires 0 <= i < |xs| => wrap(xs[i]))
  }

  function ListField<V(==)>(v: Json, key: string, wrap: Json -> V): (r: Result<seq<V>, Fault>)
    ensures ListRead(r, v, key, wrap)
  {
    var raw :- Get(v, key);
    var xs :- Iterate(raw);
    Success(MapAll(xs, wrap))
  }

  /** `v[i]` for a small non-negative literal `i`. */
  function Index(v: Json, i: nat): (r: Result<Json, Fault>)
    ensures v.Arr? && i < |v.items| <==> r.Success? && v.Arr?
    ensures v.Arr? && i < |v.items| ==> r == Success(v.items[i])
    ensures v.Arr? && i >= |v.items| ==> r == Failure(IndexError)
    ensures v.Str? ==> r == (if i < |v.s| then Success(Str([v.s[i]])) else Failure(IndexError))
    ensures v.Obj? ==> r == Failure(KeyError)
    ensures (v.Null? || v.Bool? || v.Num?) ==> r == Failure(TypeError)
  {
    match v
    case Arr(items) => if i < |items| then Success(items[i]) else Failure(IndexError)
    case Str(s) => if i < |s| then Success(Str([s[i]])) else Failure(IndexError)
    // JSON object keys are strings, so an integer key is never among them.
    case Obj(_) => Failure(KeyError)
    case _ => Failure(TypeError)
  }

  /** Python truthiness. */
  predicate Truthy(v: Json) {
    match v
    case Null => false
    case Bool(b) => b
    case Num(n) => n != 0
    case Str(s) => |s| > 0
    case Arr(items) => |items| > 0
    case Obj(es) => |es| > 0
  }

  /** A list, string or dict is true exactly when iterating it yields
      something. */
  lemma TruthyContainer(v: Json)
    requires v.Arr? || v.Str? || v.Obj?
    ensures Truthy(v) <==> |Iterate(v).value| > 0
  {
  }

  function DigitChar(d: nat): (c: char)
    requires d < 10
    ensures '0' <= c <= '9'
  {
    "0123456789"[d]
  }

  /** The decimal digits of `n`, most significant first. */
  function Digits(n: nat): (r: string)
    ensures |r| > 0
    ensures forall k :: 0 <= k < |r| ==> '0' <= r[k] <= '9'
    decreases n
  {
    if n < 10 then [DigitChar(n)] else Digits(n / 10) + [DigitChar(n % 10)]
  }

  /** `str(n)` for an integer. */
  /** `str(n)`: a minus sign exactly for a negative number, then digits. */
  function Decimal(n: int): (r: string)
    ensures |r| > 0
    ensures r[0] == '-' <==> n < 0
    ensures forall k :: (if n < 0 then 1 else 0) <= k < |r| ==> '0' <= r[k] <= '9'
  {
    if n < 0 then "-" + Digits(-n) else Digits(n)
  }

  /** `str(v)`, as an f-string formats it, for the scalar values. */
  function Render(v: Json): (r: Result<string, Fault>)
    ensures v.Str? ==> r == Success(v.s)
    ensures v.Null? ==> r == Success("None")
    ensures v.Bool? ==> r == Success(if v.b then "True" else "False")
    ensures v.Num? ==> r == Success(Decimal(v.n))
    ensures r.Failure? <==> v.Arr? || v.Obj?
  {
    match v
    case Null => Success("None")
    case Bool(b) => Success(if b then "True" else "False")
    case Num(n) => Success(Decimal(n))
    case Str(s) => Success(s)
    case _ => Failure(Unmodelled)
  }
}
