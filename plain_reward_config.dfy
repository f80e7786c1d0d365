/** The reward configuration record without algorithm selection: 19 attributes. */
module PlainRewardConfig {
  import opened ConfigValues

  /** The attribute names the constructor creates. */
  const Names: set<Key> := {
    StepPenalty, AstarFollowReward, AstarOnPathReward, CloserToDestinationReward,
    HighCongestionThreshold, CongestionPenaltyMultiplier, ImmediateBacktrackPenalty,
    OscillationPenalty, LongOscillationPenalty, RedLightWaitPenalty, DestinationReachedReward,
    LoopThresholdBase, LoopThresholdMax, LoopPenaltyBase, LoopPenaltyMax,
    ProximityBaseMultiplier, ProximityMaxMultiplier, PathDistanceBaseReward, PathDistancePenaltyMultiplier
  }

  /** The value `__init__` gives each attribute it creates. */
  function Default(k: Key): Value
    requires k in Names
  {
    match k
    case StepPenalty => Int(-1)
    case AstarFollowReward => Int(10)
    case AstarOnPathReward => Int(5)
    case CloserToDestinationReward => Int(3)
    case HighCongestionThreshold => Float(0.5)
    case CongestionPenaltyMultiplier => Int(5)
    case ImmediateBacktrackPenalty => Int(-30)
    case OscillationPenalty => Int(-40)
    case LongOscillationPenalty => Int(-50)
    case RedLightWaitPenalty => Int(-5)
    case DestinationReachedReward => Int(100)
    case LoopThresholdBase => Int(3)
    case LoopThresholdMax => Int(5)
    case LoopPenaltyBase => Int(-20)
    case LoopPenaltyMax => Int(-100)
    case ProximityBaseMultiplier => Int(5)
    case ProximityMaxMultiplier => Int(15)
    case PathDistanceBaseReward => Int(10)
    case PathDistancePenaltyMultiplier => Int(2)
    case Algorithm | ExpBaseReward | ExpAmplitude | ExpXScale | ExpYScale => assert false; Int(0)
  }

  /** The attributes as `__init__` sets them. */
  function Defaults(): (d: Attrs)
    ensures d.Keys == Names && Algorithm !in d
    ensures d[ImmediateBacktrackPenalty] == Int(-30) && d[OscillationPenalty] == Int(-40)
    ensures d[RedLightWaitPenalty] == Int(-5) && d[DestinationReachedReward] == Int(100)
  {
    map k | k in Names :: Default(k)
  }

  /** Every attribute the constructor creates is present. */
  predicate Complete(a: Attrs)
  {
    Names <= a.Keys
  }

  /** A grouped getter's dictionary. */
  type Group = map<string, Value>

  function GetStepPenalty(a: Attrs): Value
    requires Complete(a)
  {
    a[StepPenalty]
  }

  function GetAstarRewards(a: Attrs): (m: Group)
    requires Complete(a)
    ensures m.Keys == {"follow", "on_path"}
  {
    map["follow" := a[AstarFollowReward], "on_path" := a[AstarOnPathReward]]
  }

  function GetDistanceReward(a: Attrs): Value
    requires Complete(a)
  {
    a[CloserToDestinationReward]
  }

  function GetCongestionConfig(a: Attrs): (m: Group)
    requires Complete(a)
    ensures m.Keys == {"threshold", "penalty_multiplier"}
  {
    map["threshold" := a[HighCongestionThreshold], "penalty_multiplier" := a[CongestionPenaltyMultiplier]]
  }

  function GetBackwardMovementPenalties(a: Attrs): (m: Group)
    requires Complete(a)
    ensures m.Keys == {"immediate_backtrack", "oscillation", "long_oscillation"}
  {
    map[
      "immediate_backtrack" := a[ImmediateBacktrackPenalty],
      "oscillation" := a[OscillationPenalty],
      "long_oscillation" := a[LongOscillationPenalty]
    ]
  }

  function GetTrafficLightPenalty(a: Attrs): Value
    requires Complete(a)
  {
    a[RedLightWaitPenalty]
  }

  function GetDestinationReward(a: Attrs): Value
    requires Complete(a)
  {
    a[DestinationReachedReward]
  }

  function GetLoopConfig(a: Attrs): (m: Group)
    requires Complete(a)
    ensures m.Keys == {"threshold_base", "threshold_max", "penalty_base", "penalty_max"}
  {
    map[
      "threshold_base" := a[LoopThresholdBase],
      "threshold_max" := a[LoopThresholdMax],
      "penalty_base" := a[LoopPenaltyBase],
      "penalty_max" := a[LoopPenaltyMax]
    ]
  }

  function GetProximityConfig(a: Attrs): (m: Group)
    requires Complete(a)
    ensures m.Keys == {"base_multiplier", "max_multiplier"}
  {
    map["base_multiplier" := a[ProximityBaseMultiplier], "max_multiplier" := a[ProximityMaxMultiplier]]
  }

  function GetPathDistanceConfig(a: Attrs): (m: Group)
    requires Complete(a)
    ensures m.Keys == {"base_reward", "penalty_multiplier"}
  {
    map["base_reward" := a[PathDistanceBaseReward], "penalty_multiplier" := a[PathDistancePenaltyMultiplier]]
  }

  /** The loop getter of a default record returns the constructor's values. */
  lemma LoopConfigAtDefaults()
    ensures GetLoopConfig(Defaults())
            == map["threshold_base" := Int(3), "threshold_max" := Int(5), "penalty_base" := Int(-20), "penalty_max" := Int(-100)]
  {
  }

  /** The backtracking and congestion getters of a default record return the constructor's values. */
  lemma PenaltyGettersAtDefaults()
    ensures GetBackwardMovementPenalties(Defaults())
            == map["immediate_backtrack" := Int(-30), "oscillation" := Int(-40), "long_oscillation" := Int(-50)]
    ensures GetCongestionConfig(Defaults()) == map["threshold" := Float(0.5), "penalty_multiplier" := Int(5)]
  {
  }

  /** Each single-value getter of an updated record returns the attribute's value after the
      update; in particular an update naming an attribute makes the getter return the new value,
      and an update naming none of a group's attributes leaves the group as it was. */
  lemma GettersFollowUpdate(a: Attrs, kwargs: Kwargs)
    requires a.Keys == Names
    ensures var b := Apply(a, kwargs);
      && Complete(b)
      && GetStepPenalty(b) == Updated(a, kwargs, StepPenalty)
      && GetDistanceReward(b) == Updated(a, kwargs, CloserToDestinationReward)
      && GetTrafficLightPenalty(b) == Updated(a, kwargs, RedLightWaitPenalty)
      && GetDestinationReward(b) == Updated(a, kwargs, DestinationReachedReward)
      && (Attr(StepPenalty) in kwargs ==> GetStepPenalty(b) == kwargs[Attr(StepPenalty)])
      && (Attr(LoopPenaltyMax) in kwargs ==> GetLoopConfig(b)["penalty_max"] == kwargs[Attr(LoopPenaltyMax)])
      && (Attr(Algorithm) in kwargs ==> b == Apply(a, map kw | kw in kwargs && kw != Attr(Algorithm) :: kwargs[kw]))
      && (Attr(LoopThresholdBase) !in kwargs && Attr(LoopThresholdMax) !in kwargs
          && Attr(LoopPenaltyBase) !in kwargs && Attr(LoopPenaltyMax) !in kwargs
          ==> GetLoopConfig(b) == GetLoopConfig(a))
  {
  }

  /** Each grouped getter of an updated record holds, under each of its names, the attribute's
      value after the update. */
  lemma GroupGettersFollowUpdate(a: Attrs, kwargs: Kwargs)
    requires a.Keys == Names
    ensures GetAstarRewards(Apply(a, kwargs)) == map[
      "follow" := Updated(a, kwargs, AstarFollowReward),
      "on_path" := Updated(a, kwargs, AstarOnPathReward)
    ]
    ensures GetCongestionConfig(Apply(a, kwargs)) == map[
      "threshold" := Updated(a, kwargs, HighCongestionThreshold),
      "penalty_multiplier" := Updated(a, kwargs, CongestionPenaltyMultiplier)
    ]
    ensures GetBackwardMovementPenalties(Apply(a, kwargs)) == map[
      "immediate_backtrack" := Updated(a, kwargs, ImmediateBacktrackPenalty),
      "oscillation" := Updated(a, kwargs, OscillationPenalty),
      "long_oscillation" := Updated(a, kwargs, LongOscillationPenalty)
    ]
    ensures GetLoopConfig(Apply(a, kwargs)) == map[
      "threshold_base" := Updated(a, kwargs, LoopThresholdBase),
      "threshold_max" := Updated(a, kwargs, LoopThresholdMax),
      "penalty_base" := Updated(a, kwargs, LoopPenaltyBase),
      "penalty_max" := Updated(a, kwargs, LoopPenaltyMax)
    ]
    ensures GetProximityConfig(Apply(a, kwargs)) == map[
      "base_multiplier" := Updated(a, kwargs, ProximityBaseMultiplier),
      "max_multiplier" := Updated(a, kwargs, ProximityMaxMultiplier)
    ]
    ensures GetPathDistanceConfig(Apply(a, kwargs)) == map[
      "base_reward" := Updated(a, kwargs, PathDistanceBaseReward),
      "penalty_multiplier" := Updated(a, kwargs, PathDistancePenaltyMultiplier)
    ]
  {
  }

  /** `get_all_config`: all 19 attributes under their own names. */
  function GetAllConfig(a: Attrs): Kwargs
    requires Complete(a)
  {
    map[
      Attr(StepPenalty) := a[StepPenalty],
      Attr(AstarFollowReward) := a[AstarFollowReward],
      Attr(AstarOnPathReward) := a[AstarOnPathReward],
      Attr(CloserToDestinationReward) := a[CloserToDestinationReward],
      Attr(HighCongestionThreshold) := a[HighCongestionThreshold],
      Attr(CongestionPenaltyMultiplier) := a[CongestionPenaltyMultiplier],
      Attr(ImmediateBacktrackPenalty) := a[ImmediateBacktrackPenalty],
      Attr(OscillationPenalty) := a[OscillationPenalty],
      Attr(LongOscillationPenalty) := a[LongOscillationPenalty],
      Attr(RedLightWaitPenalty) := a[RedLightWaitPenalty],
      Attr(DestinationReachedReward) := a[DestinationReachedReward],
      Attr(LoopThresholdBase) := a[LoopThresholdBase],
      Attr(LoopThresholdMax) := a[LoopThresholdMax],
      Attr(LoopPenaltyBase) := a[LoopPenaltyBase],
      Attr(LoopPenaltyMax) := a[LoopPenaltyMax],
      Attr(ProximityBaseMultiplier) := a[ProximityBaseMultiplier],
      Attr(ProximityMaxMultiplier) := a[ProximityMaxMultiplier],
      Attr(PathDistanceBaseReward) := a[PathDistanceBaseReward],
      Attr(PathDistancePenaltyMultiplier) := a[PathDistancePenaltyMultiplier]
    ]
  }

  /** The export holds exactly the 19 attribute names, each mapped to the attribute's value. */
  lemma GetAllConfigSpec(a: Attrs)
    requires Complete(a)
    ensures forall kw :: kw in GetAllConfig(a) <==> kw.Attr? && kw.key in Names
    ensures forall k :: k in Names ==> Attr(k) in GetAllConfig(a) && GetAllConfig(a)[Attr(k)] == a[k]
  {
    var m := GetAllConfig(a);
    forall kw | kw in m ensures kw.Attr? && kw.key in Names {
    }
    forall k | k in Names ensures Attr(k) in m && m[Attr(k)] == a[k] {
    }
  }

  /** Exporting a record and feeding the export to `update_config` of any other record
      reproduces the first record attribute by attribute. */
  lemma RoundTrip(a: Attrs, b: Attrs)
    requires a.Keys == Names && b.Keys == Names
    ensures Apply(b, GetAllConfig(a)) == a
  {
    GetAllConfigSpec(a);
    assert GetAllConfig(a) == Export(a);
    ExportRoundTrip(a, b);
  }

  /** `RewardConfig`. Its attributes are the map `attrs`, the instance's `__dict__`. */
  class RewardConfig {
    var attrs: Attrs

    ghost predicate Valid()
      reads this
    {
      attrs.Keys == Names
    }

    constructor ()
      ensures Valid() && attrs == Defaults()
    {
      attrs := Defaults();
    }

    /** `update_config(**kwargs)`: the `setattr` loop over the keyword arguments. */
    method UpdateConfig(kwargs: Kwargs)
      requires Valid()
      modifies this
      ensures Valid()
      ensures attrs == Apply(old(attrs), kwargs)
    {
      var pending := kwargs.Keys;
      ghost var done: set<Keyword> := {};
      assert Restrict(kwargs, done) == map[];
      while pending != {}
        invariant pending + done == kwargs.Keys && pending !! done
        invariant attrs == Apply(old(attrs), Restrict(kwargs, done))
        decreases pending
      {
        var key :| key in pending;
        ApplyOneMore(old(attrs), kwargs, done, key);
        if HasAttr(attrs, key) {
          attrs := attrs[key.key := kwargs[key]];
        }
        pending := pending - {key};
        done := done + {key};
      }
      assert Restrict(kwargs, done) == kwargs;
    }

    /** `reset_to_defaults`: whatever came before, every attribute is its default again. */
    method ResetToDefaults()
      modifies this
      ensures Valid() && attrs == Defaults()
    {
      attrs := Defaults();
    }
  }
}
