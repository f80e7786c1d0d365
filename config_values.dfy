/** The attributes of the reward configuration records, their dynamically typed values, and the
    keyed update and export both records share. */
module ConfigValues {

  /** A Python attribute value as the records hold it: an `int`, a `float` or a `str`. */
  datatype Value = Int(i: int) | Float(r: real) | Str(s: string)

  /** Every attribute either record creates, named as in the source in CamelCase
      (`StepPenalty` is `step_penalty`). The record without algorithm selection has all but
      the first five. */
  datatype Key =
    | Algorithm | ExpBaseReward | ExpAmplitude | ExpXScale | ExpYScale
    | StepPenalty | AstarFollowReward | AstarOnPathReward | CloserToDestinationReward
    | HighCongestionThreshold | CongestionPenaltyMultiplier
    | ImmediateBacktrackPenalty | OscillationPenalty | LongOscillationPenalty
    | RedLightWaitPenalty | DestinationReachedReward
    | LoopThresholdBase | LoopThresholdMax | LoopPenaltyBase | LoopPenaltyMax
    | ProximityBaseMultiplier | ProximityMaxMultiplier
    | PathDistanceBaseReward | PathDistancePenaltyMultiplier

  /** A keyword argument's name: the name of a `Key`, or any other string. */
  datatype Keyword = Attr(key: Key) | Other(name: string)

  /** An object's attributes. */
  type Attrs = map<Key, Value>

  /** Keyword arguments, or an exported dictionary. */
  type Kwargs = map<Keyword, Value>

  /** `hasattr(self, key)` for a record whose attributes are `attrs`. */
  predicate HasAttr(attrs: Attrs, kw: Keyword)
  {
    kw.Attr? && kw.key in attrs
  }

  /** The effect of `update_config(**kwargs)`: the value of each attribute named in `kwargs`,
      and the old value of every other one. */
  function Apply(attrs: Attrs, kwargs: Kwargs): (r: Attrs)
    ensures r.Keys == attrs.Keys
  {
    map k | k in attrs :: if Attr(k) in kwargs then kwargs[Attr(k)] else attrs[k]
  }

  /** The attributes as a dictionary keyed by their names. */
  function Export(attrs: Attrs): (m: Kwargs)
    ensures forall kw :: kw in m <==> HasAttr(attrs, kw)
    ensures forall k :: k in attrs ==> Attr(k) in m && m[Attr(k)] == attrs[k]
  {
    map k | k in attrs :: Attr(k) := attrs[k]
  }

  /** The part of `kwargs` whose names lie in `done`. */
  function Restrict(kwargs: Kwargs, done: set<Keyword>): (r: Kwargs)
    ensures r.Keys == kwargs.Keys * done
    ensures forall kw :: kw in r ==> r[kw] == kwargs[kw]
  {
    map kw | kw in kwargs && kw in done :: kwargs[kw]
  }

  /** The value attribute `k` has after the update: the keyword's value when `kwargs` names
      `k`, and the old value otherwise. */
  function Updated(attrs: Attrs, kwargs: Kwargs, k: Key): Value
    requires k in attrs
  {
    if Attr(k) in kwargs then kwargs[Attr(k)] else attrs[k]
  }

  /** A one-keyword update is a single `setattr` when the record has the attribute, and
      changes nothing otherwise. */
  lemma ApplySingle(attrs: Attrs, kw: Keyword, v: Value)
    ensures Apply(attrs, map[kw := v]) == if HasAttr(attrs, kw) then attrs[kw.key := v] else attrs
  {
  }

  /** Two successive updates are one update with the merged keywords, the later call's value
      winning where both name an attribute. */
  lemma ApplyMerge(attrs: Attrs, first: Kwargs, second: Kwargs)
    ensures Apply(Apply(attrs, first), second) == Apply(attrs, first + second)
  {
  }

  /** An update that names no attribute of the record changes nothing. */
  lemma ApplyUnknownKeys(attrs: Attrs, kwargs: Kwargs)
    requires forall kw :: kw in kwargs ==> !HasAttr(attrs, kw)
    ensures Apply(attrs, kwargs) == attrs
  {
  }

  /** The export of one record, fed to `update_config` of a record with the same attributes,
      reproduces the first record. */
  lemma ExportRoundTrip(a: Attrs, b: Attrs)
    requires a.Keys == b.Keys
    ensures Apply(b, Export(a)) == a
  {
  }

  /** Applying the same update twice is applying it once. */
  lemma ApplyIdempotent(attrs: Attrs, kwargs: Kwargs)
    ensures Apply(Apply(attrs, kwargs), kwargs) == Apply(attrs, kwargs)
  {
  }

  /** One more iteration of the `setattr` loop: adding the keyword `kw` to the processed part. */
  lemma ApplyOneMore(attrs: Attrs, kwargs: Kwargs, done: set<Keyword>, kw: Keyword)
    requires kw in kwargs && kw !in done
    ensures Apply(attrs, Restrict(kwargs, done + {kw}))
            == if HasAttr(attrs, kw) then Apply(attrs, Restrict(kwargs, done))[kw.key := kwargs[kw]]
               else Apply(attrs, Restrict(kwargs, done))
  {
    var lhs := Apply(attrs, Restrict(kwargs, done + {kw}));
    var before := Apply(attrs, Restrict(kwargs, done));
    var rhs := if HasAttr(attrs, kw) then before[kw.key := kwargs[kw]] else before;
    assert lhs.Keys == rhs.Keys;
    forall k | k in lhs ensures lhs[k] == rhs[k] {
      if Attr(k) != kw {
        assert (Attr(k) in Restrict(kwargs, done + {kw})) == (Attr(k) in Restrict(kwargs, done));
      }
    }
  }
}
