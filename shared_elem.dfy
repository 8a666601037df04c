/**
 * The fields every tree node shares (name, description, creation time) and
 * the timestamp normalisation applied when a node is constructed from a
 * partial record (src/app/_models/warehouse/shared/wh-shared-elem.ts).
 */
module SharedElem {
  import opened Wrappers

  /** A Firestore Timestamp as stored; only its ISO conversion is used. */
  datatype FsTimestamp = FsTimestamp(seconds: int, nanoseconds: int)

  /** The run-time shapes a stored timestamp field can take. */
  datatype JsValue =
    | Undefined
    | Null
    | Bool(b: bool)
    | Num(n: real)
    | Str(s: string)
    | Stamp(t: FsTimestamp)
    | Obj

  /** JavaScript falsiness: `undefined`, `null`, `false`, `0` and `""`. */
  predicate Falsy(v: JsValue) {
    match v
    case Undefined => true
    case Null => true
    case Bool(b) => !b
    case Num(n) => n == 0.0
    case Str(s) => s == ""
    case _ => false
  }

  /**
   * The two facts construction takes from outside: the current time as an
   * ISO string (`DateTime.now().toISO()`) and the conversion of a Firestore
   * Timestamp to an ISO string (`toDate().toISOString()`).
   */
  datatype Clock = Clock(now: string, toIso: FsTimestamp -> string)

  /** Both sources of ISO strings give non-empty strings, as real clocks do. */
  ghost predicate WellFormed(clock: Clock) {
    clock.now != "" && forall t :: clock.toIso(t) != ""
  }

  /**
   * `WhSharedElem.normalizeTimestamp`: falsy values become "now", a
   * Firestore Timestamp its ISO string, a string passes through, anything
   * else becomes "now".
   */
  function NormalizeTimestamp(clock: Clock, raw: JsValue): (r: string)
    ensures r == clock.now || (raw.Stamp? && r == clock.toIso(raw.t)) || (raw.Str? && r == raw.s)
    ensures WellFormed(clock) ==> r != ""
  {
    if Falsy(raw) then clock.now
    else match raw
      case Stamp(t) => clock.toIso(t)
      case Str(s) => s
      case _ => clock.now
  }

  /** The four cases of the normalisation, one by one. */
  lemma NormalizeCases(clock: Clock, raw: JsValue)
    ensures Falsy(raw) ==> NormalizeTimestamp(clock, raw) == clock.now
    ensures raw.Stamp? ==> NormalizeTimestamp(clock, raw) == clock.toIso(raw.t)
    ensures raw.Str? && raw.s != "" ==> NormalizeTimestamp(clock, raw) == raw.s
    ensures !Falsy(raw) && !raw.Stamp? && !raw.Str? ==> NormalizeTimestamp(clock, raw) == clock.now
  {
  }

  /**
   * Normalising an already normalised timestamp changes nothing exactly
   * when the first result is non-empty or "now" itself is empty.
   */
  lemma NormalizeIdempotent(clock: Clock, raw: JsValue)
    ensures var once := NormalizeTimestamp(clock, raw);
            NormalizeTimestamp(clock, Str(once)) == once <==> (once != "" || clock.now == "")
  {
  }

  /** Under a well-formed clock, normalising twice is normalising once. */
  lemma NormalizeTwice(clock: Clock, raw: JsValue)
    requires WellFormed(clock)
    ensures NormalizeTimestamp(clock, Str(NormalizeTimestamp(clock, raw))) == NormalizeTimestamp(clock, raw)
  {
    NormalizeIdempotent(clock, raw);
  }

  /** The shared part of a partial record as read from storage. */
  datatype RawShared = RawShared(name: Option<string>, description: Option<string>, createdTimestamp: JsValue)

  /** The shared part of a constructed node: no field is absent. */
  datatype Shared = Shared(name: string, description: string, createdTimestamp: string)

  /** A constructed node's shared part has a creation time. */
  predicate ValidShared(s: Shared) {
    s.createdTimestamp != ""
  }

  /** The `WhSharedElem` constructor. */
  function MakeShared(clock: Clock, data: RawShared): (r: Shared)
    ensures data.name.Some? ==> r.name == data.name.value
    ensures data.name.None? ==> r.name == ""
    ensures data.description.Some? ==> r.description == data.description.value
    ensures data.description.None? ==> r.description == ""
    ensures r.createdTimestamp == NormalizeTimestamp(clock, data.createdTimestamp)
    ensures WellFormed(clock) ==> ValidShared(r)
  {
    Shared(data.name.GetOr(""), data.description.GetOr(""), NormalizeTimestamp(clock, data.createdTimestamp))
  }

  /** A constructed shared part, seen as the record it presents when passed to a constructor again. */
  function SharedToRaw(s: Shared): RawShared {
    RawShared(Some(s.name), Some(s.description), Str(s.createdTimestamp))
  }

  /** Constructing from a constructed shared part gives it back. */
  lemma SharedRoundTrip(clock: Clock, s: Shared)
    requires ValidShared(s)
    ensures MakeShared(clock, SharedToRaw(s)) == s
  {
  }
}
