/** Resolver: the mixing of nested groups as the `DimmerGroup` docstring
    describes it (nested results combined highest-takes-precedence, explicit
    channels overriding them, the master level applied last), next to the
    fold the source actually writes. Everything here is on values: an entity
    is the triple of state that resolution reads. */
module Resolver {
  import opened Levels

  /** What resolution reads of an entity. The stored level is not among it:
      every resolution is given its master level. */
  datatype Mixable = Mixable(channels: map<ChannelId, real>, nested: map<EntityId, real>)

  function Get(acc: map<ChannelId, real>, d: ChannelId): real
  {
    if d in acc then acc[d] else 0.0
  }

  /** One nested result folded in as `get_dimmers` writes it: the incoming
      device level `i` is compared against the stored value, which is already
      divided by 255, and the new value is stored divided by 255. */
  function StepAsWritten(acc: map<ChannelId, real>, r: map<ChannelId, int>): map<ChannelId, real>
  {
    map d | d in acc.Keys + r.Keys && (d in acc || r[d] as real > 0.0) ::
      if d in r && r[d] as real > Get(acc, d) then r[d] as real / DmxMaxSlotValue as real else acc[d]
  }

  /** Some nested result gives channel `d` a positive level. */
  ghost predicate Lit(rs: seq<map<ChannelId, int>>, d: ChannelId)
  {
    exists k :: 0 <= k < |rs| && d in rs[k] && rs[k][d] > 0
  }

  /** The nested fold of `get_dimmers` as written, over the nested results
      in iteration order. */
  function FoldAsWritten(rs: seq<map<ChannelId, int>>): map<ChannelId, real>
  {
    if rs == [] then map[] else StepAsWritten(FoldAsWritten(rs[..|rs| - 1]), rs[|rs| - 1])
  }

  /** The fold as written lights the same channels as the intended fold, and
      each at the level one of the results gives it, over 255; but not
      necessarily the highest one (see `FoldAsWrittenIsNotMax`). */
  lemma {:induction false} FoldAsWrittenPicksOne(rs: seq<map<ChannelId, int>>, d: ChannelId)
    ensures d in FoldAsWritten(rs) <==> Lit(rs, d)
    ensures d in FoldAsWritten(rs) ==>
              exists k :: 0 <= k < |rs| && d in rs[k] && FoldAsWritten(rs)[d] == rs[k][d] as real / DmxMaxSlotValue as real
    decreases |rs|
  {
    if rs != [] {
      var n := |rs| - 1;
      var front := rs[..n];
      FoldAsWrittenPicksOne(front, d);
      assert forall k :: 0 <= k < n ==> rs[k] == front[k];
      var acc := FoldAsWritten(front);
      assert FoldAsWritten(rs) == StepAsWritten(acc, rs[n]);
      if d in acc {
        var k :| 0 <= k < n && d in front[k] && acc[d] == front[k][d] as real / DmxMaxSlotValue as real;
        assert rs[k] == front[k];
      }
    }
  }

  /** One nested result folded in highest-takes-precedence: both sides of the
      comparison in normalised units. */
  function StepHtp(acc: map<ChannelId, real>, r: map<ChannelId, int>): map<ChannelId, real>
  {
    map d | d in acc.Keys + r.Keys && (d in acc || r[d] as real > 0.0) ::
      if d in r && r[d] as real / DmxMaxSlotValue as real > Get(acc, d) then r[d] as real / DmxMaxSlotValue as real
      else acc[d]
  }

  /** The nested fold as intended. */
  function FoldHtp(rs: seq<map<ChannelId, int>>): map<ChannelId, real>
  {
    if rs == [] then map[] else StepHtp(FoldHtp(rs[..|rs| - 1]), rs[|rs| - 1])
  }

  /** The as-written fold is not a maximum: a channel at 200 followed by the
      same channel at 100 keeps 100/255, because 100 exceeds 200/255. The
      intended fold keeps 200/255. */
  lemma FoldAsWrittenIsNotMax()
    ensures FoldAsWritten([map[5 := 200], map[5 := 100]]) == map[5 := 100.0 / DmxMaxSlotValue as real]
    ensures FoldHtp([map[5 := 200], map[5 := 100]]) == map[5 := 200.0 / DmxMaxSlotValue as real]
  {
    var one: seq<map<ChannelId, int>> := [map[5 := 200]];
    var rs := one + [map[5 := 100]];
    assert rs[..1] == one && one[..0] == [];
    var first := StepAsWritten(map[], map[5 := 200]);
    assert first.Keys == {5};
    assert first == map[5 := 200.0 / DmxMaxSlotValue as real];
    assert FoldAsWritten(one) == first;
    var second := StepAsWritten(first, map[5 := 100]);
    assert second.Keys == {5};
    assert second == map[5 := 100.0 / DmxMaxSlotValue as real];
    assert FoldAsWritten(rs) == second;
    var firstHtp := StepHtp(map[], map[5 := 200]);
    assert firstHtp.Keys == {5};
    assert firstHtp == map[5 := 200.0 / DmxMaxSlotValue as real];
    assert FoldHtp(one) == firstHtp;
    assert StepHtp(firstHtp, map[5 := 100]).Keys == {5};
  }

  /** Highest takes precedence: a channel is in the fold exactly when some
      nested result gives it a positive level, and then it holds the largest
      level any nested result gives it, in normalised units — never a sum or
      a blend. */
  lemma {:induction false} FoldHtpIsMax(rs: seq<map<ChannelId, int>>, d: ChannelId)
    ensures d in FoldHtp(rs) <==> exists k :: 0 <= k < |rs| && d in rs[k] && rs[k][d] > 0
    ensures d in FoldHtp(rs) ==>
              forall k :: 0 <= k < |rs| && d in rs[k] ==> rs[k][d] as real / DmxMaxSlotValue as real <= FoldHtp(rs)[d]
    ensures d in FoldHtp(rs) ==>
              exists k :: 0 <= k < |rs| && d in rs[k] && FoldHtp(rs)[d] == rs[k][d] as real / DmxMaxSlotValue as real
    decreases |rs|
  {
    if rs != [] {
      var n := |rs| - 1;
      var front := rs[..n];
      FoldHtpIsMax(front, d);
      assert forall k :: 0 <= k < n ==> rs[k] == front[k];
      var acc := FoldHtp(front);
      assert FoldHtp(rs) == StepHtp(acc, rs[n]);
      if d in acc {
        var k :| 0 <= k < n && d in front[k] && acc[d] == front[k][d] as real / DmxMaxSlotValue as real;
        assert rs[k] == front[k];
        if d in rs[n] && rs[n][d] as real / DmxMaxSlotValue as real > acc[d] {
          assert FoldHtp(rs)[d] == rs[n][d] as real / DmxMaxSlotValue as real;
        }
      } else if d in rs[n] && rs[n][d] > 0 {
        assert FoldHtp(rs)[d] == rs[n][d] as real / DmxMaxSlotValue as real;
      }
    }
  }

  /** Mixing one entity once its nested results are known: the fold, then the
      explicit channels on top, then the master level. An explicit channel
      comes out at its own level whatever the nested results say for it. */
  function Mix(rs: seq<map<ChannelId, int>>, channels: map<ChannelId, real>, master: real): (out: map<ChannelId, int>)
    ensures out.Keys == FoldHtp(rs).Keys + channels.Keys
    ensures forall d :: d in channels ==> out[d] == Scaled(channels, master)[d]
  {
    var levels := FoldHtp(rs) + channels;
    assert forall d :: d in channels ==> levels[d] == channels[d];
    forall d | d in channels
      ensures Scaled(levels, master)[d] == Scaled(channels, master)[d]
    {
      ScaledAt(levels, master, d);
      ScaledAt(channels, master, d);
    }
    Scaled(levels, master)
  }

  /** `get_dimmers(master)` as intended: resolve every nested reference, then
      mix. `depth` is the stack Python has left; it is what stops a cycle of
      references, as nothing else in the source does. A failed reference
      fails the whole resolution; otherwise the output lights exactly the
      explicit channels and those some nested result lights. */
  ghost function Resolve(reg: map<EntityId, Mixable>, e: Mixable, master: real, depth: nat): (r: Result<map<ChannelId, int>>)
    ensures r.Ok? <==> ResolveNested(reg, e.nested, depth).Ok?
    ensures r.Err? ==> r.error == ResolveNested(reg, e.nested, depth).error
    ensures r.Ok? ==> r.value.Keys == FoldHtp(ResolveNested(reg, e.nested, depth).value).Keys + e.channels.Keys
    decreases depth, 2, 0
  {
    match ResolveNested(reg, e.nested, depth)
    case Err(err) => Err(err)
    case Ok(rs) =>
      Ok(Mix(rs, e.channels, master))
  }

  /** The results of the nested references, one per reference, in some order
      of the map. */
  ghost function ResolveNested(reg: map<EntityId, Mixable>, nested: map<EntityId, real>, depth: nat)
    : (r: Result<seq<map<ChannelId, int>>>)
    ensures r.Ok? ==> |r.value| == |nested|
    decreases depth, 1, |nested|
  {
    if |nested| == 0 then Ok([])
    else
      var k := Pick(nested);
      assert |nested - {k}| == |nested| - 1;
      match ResolveAt(reg, k, nested[k], depth)
      case Err(err) => Err(err)
      case Ok(r) =>
        match ResolveNested(reg, nested - {k}, depth)
        case Err(err) => Err(err)
        case Ok(rs) => Ok([r] + rs)
  }

  /** The reference `ResolveNested` resolves first. */
  ghost function Pick(nested: map<EntityId, real>): (k: EntityId)
    requires nested != map[]
    ensures k in nested
  {
    var k :| k in nested; k
  }

  /** Nested resolution succeeds only if every reference resolves, and then
      every reference's result is among the results. */
  lemma {:induction false} ResolveNestedComplete(reg: map<EntityId, Mixable>, nested: map<EntityId, real>, depth: nat)
    requires ResolveNested(reg, nested, depth).Ok?
    ensures forall k :: k in nested ==>
              ResolveAt(reg, k, nested[k], depth).Ok? &&
              ResolveAt(reg, k, nested[k], depth).value in ResolveNested(reg, nested, depth).value
    decreases |nested|
  {
    if |nested| != 0 {
      var p := Pick(nested);
      var rest := nested - {p};
      assert |rest| == |nested| - 1;
      ResolveNestedComplete(reg, rest, depth);
      forall k | k in nested
        ensures ResolveAt(reg, k, nested[k], depth).Ok?
        ensures ResolveAt(reg, k, nested[k], depth).value in ResolveNested(reg, nested, depth).value
      {
        if k != p {
          assert k in rest && rest[k] == nested[k];
        }
      }
    }
  }

  /** Every result of nested resolution is some reference's resolution, and a
      failure of nested resolution is some reference's failure, with its error. */
  lemma {:induction false} ResolveNestedSound(reg: map<EntityId, Mixable>, nested: map<EntityId, real>, depth: nat)
    ensures ResolveNested(reg, nested, depth).Ok? ==>
              forall r :: r in ResolveNested(reg, nested, depth).value ==>
                exists k :: k in nested && ResolveAt(reg, k, nested[k], depth) == Ok(r)
    ensures ResolveNested(reg, nested, depth).Err? ==>
              exists k :: k in nested && ResolveAt(reg, k, nested[k], depth) == Err(ResolveNested(reg, nested, depth).error)
    decreases |nested|
  {
    if |nested| != 0 {
      var p := Pick(nested);
      var rest := nested - {p};
      assert |rest| == |nested| - 1;
      ResolveNestedSound(reg, rest, depth);
      if ResolveAt(reg, p, nested[p], depth).Ok? && ResolveNested(reg, rest, depth).Ok? {
        forall r | r in ResolveNested(reg, nested, depth).value
          ensures exists k :: k in nested && ResolveAt(reg, k, nested[k], depth) == Ok(r)
        {
          if r != ResolveAt(reg, p, nested[p], depth).value {
            var k :| k in rest && ResolveAt(reg, k, rest[k], depth) == Ok(r);
            assert rest[k] == nested[k];
          }
        }
      } else if ResolveAt(reg, p, nested[p], depth).Ok? {
        var k :| k in rest && ResolveAt(reg, k, rest[k], depth) == Err(ResolveNested(reg, rest, depth).error);
        assert rest[k] == nested[k];
      }
    }
  }

  /** `get_dimmers_at(intensity)` as intended: the nested intensity is a device
      level, so the referenced entity is resolved at intensity / 255. An
      exhausted stack raises `RecursionError` and an unknown id `KeyError`;
      a resolved reference lights at least the referenced entity's channels. */
  ghost function ResolveAt(reg: map<EntityId, Mixable>, id: EntityId, intensity: real, depth: nat)
    : (r: Result<map<ChannelId, int>>)
    ensures depth == 0 ==> r == Err(RecursionError)
    ensures depth > 0 && id !in reg ==> r == Err(KeyError)
    ensures r.Ok? ==> id in reg && reg[id].channels.Keys <= r.value.Keys
    decreases depth, 0, 0
  {
    if depth == 0 then Err(RecursionError)
    else if id !in reg then Err(KeyError)
    else Resolve(reg, reg[id], intensity / DmxMaxSlotValue as real, depth - 1)
  }

  /** An entity without nested references resolves to its own channels
      scaled, which is what `get_dimmers` computes for it. */
  lemma ResolveLeaf(reg: map<EntityId, Mixable>, e: Mixable, master: real, depth: nat)
    requires e.nested == map[]
    ensures Resolve(reg, e, master, depth) == Ok(Scaled(e.channels, master))
  {
    assert FoldHtp([]) + e.channels == e.channels;
  }

  /** Unlike `get_dimmers_at` as written, the intended version returns: a
      reference to a registered entity without nested references yields that
      entity's channels at the nested intensity over 255. */
  lemma ResolveAtLeaf(reg: map<EntityId, Mixable>, id: EntityId, intensity: real, depth: nat)
    requires id in reg && reg[id].nested == map[] && depth > 0
    ensures ResolveAt(reg, id, intensity, depth) == Ok(Scaled(reg[id].channels, intensity / DmxMaxSlotValue as real))
  {
    var master := intensity / DmxMaxSlotValue as real;
    assert ResolveAt(reg, id, intensity, depth) == Resolve(reg, reg[id], master, depth - 1);
    ResolveLeaf(reg, reg[id], master, depth - 1);
  }

  /** The explicit tier of a resolved entity: a channel it sets explicitly
      comes out at its own level at the master level, whatever the nested
      results say for it. */
  lemma ResolveExplicit(reg: map<EntityId, Mixable>, e: Mixable, master: real, depth: nat, d: ChannelId)
    requires Resolve(reg, e, master, depth).Ok? && d in e.channels
    ensures d in Resolve(reg, e, master, depth).value
    ensures Resolve(reg, e, master, depth).value[d] == DeviceLevel(e.channels[d], master)
  {
    var rs := ResolveNested(reg, e.nested, depth).value;
    assert Resolve(reg, e, master, depth) == Ok(Mix(rs, e.channels, master));
    ScaledAt(e.channels, master, d);
  }

  /** The nested tier of a mix: a channel not set explicitly comes out at
      the highest level any nested result gives it, at the master level. */
  lemma MixNestedMax(rs: seq<map<ChannelId, int>>, channels: map<ChannelId, real>, master: real, d: ChannelId)
    requires d !in channels && d in Mix(rs, channels, master)
    ensures exists k :: 0 <= k < |rs| && d in rs[k] &&
              (forall j :: 0 <= j < |rs| && d in rs[j] ==> rs[j][d] <= rs[k][d]) &&
              Mix(rs, channels, master)[d] == DeviceLevel(rs[k][d] as real / DmxMaxSlotValue as real, master)
  {
    var fold := FoldHtp(rs);
    var levels := fold + channels;
    assert Mix(rs, channels, master) == Scaled(levels, master);
    FoldHtpIsMax(rs, d);
    var k :| 0 <= k < |rs| && d in rs[k] && fold[d] == rs[k][d] as real / DmxMaxSlotValue as real;
    ScaledAt(levels, master, d);
    forall j | 0 <= j < |rs| && d in rs[j]
      ensures rs[j][d] <= rs[k][d]
    {
      assert rs[j][d] as real / DmxMaxSlotValue as real <= rs[k][d] as real / DmxMaxSlotValue as real;
    }
  }

  /** The nested tier of a resolved entity: a channel it lights that it does
      not set explicitly comes out at the highest level any of its nested
      results `rs` gives it, at the master level. */
  lemma ResolveNestedMax(reg: map<EntityId, Mixable>, e: Mixable, master: real, depth: nat,
                         rs: seq<map<ChannelId, int>>, d: ChannelId)
    requires ResolveNested(reg, e.nested, depth) == Ok(rs)
    requires d !in e.channels && d in Resolve(reg, e, master, depth).value
    ensures exists k :: 0 <= k < |rs| && d in rs[k] &&
              (forall j :: 0 <= j < |rs| && d in rs[j] ==> rs[j][d] <= rs[k][d]) &&
              Resolve(reg, e, master, depth).value[d] == DeviceLevel(rs[k][d] as real / DmxMaxSlotValue as real, master)
  {
    assert Resolve(reg, e, master, depth) == Ok(Mix(rs, e.channels, master));
    MixNestedMax(rs, e.channels, master, d);
  }
}
