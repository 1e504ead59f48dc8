/** Data: the entity model of the mixing core — groups and cues (both
    `DimmerGroup`s) and the keyed `Registry` that owns them. */
module Data {
  import opened Levels

  /** Which subclass of `DimmerGroup` an entity was built as. Dafny's only
      subclassing is through traits, so the variant is a constant tag and the
      operations only one subclass defines require that tag. */
  datatype Kind = GroupKind | CueKind

  /** The remaining stack depth Python grants a recursive call: the interpreter's
      default recursion limit. */
  const RecursionLimit: nat := 1000

  /** `DimmerGroup.get_dimmers_at` as written: it calls itself with the level
      divided by 255 and nothing else, until the stack is exhausted. Whatever
      level it is given and however deep the stack, it never yields a dimmer
      map: it always ends in `RecursionError`. */
  function GetDimmersAtAsWritten(level: real, depth: nat): (r: Result<map<ChannelId, int>>)
    ensures r == Err(RecursionError)
    decreases depth
  {
    if depth == 0 then Err(RecursionError)
    else GetDimmersAtAsWritten(level / DmxMaxSlotValue as real, depth - 1)
  }

  /** `Cue.__getitem__`: the default-table lookup is evaluated first, so a name
      missing from the table fails even when `meta` holds it; otherwise the
      value stored in `meta` wins over the default. */
  function CueLookup(meta: map<string, real>, defaults: map<string, real>, i: string): (r: Result<real>)
    ensures r == Err(MissingDefaultError("cue", i)) <==> i !in defaults
    ensures r.Ok? <==> i in defaults
    ensures r.Ok? && i in meta ==> r.value == meta[i]
    ensures r.Ok? && i !in meta ==> r.value == defaults[i]
  {
    if i !in defaults then Err(MissingDefaultError("cue", i))
    else if i in meta then Ok(meta[i])
    else Ok(defaults[i])
  }

  /** The metadata `persist_defaults` leaves behind: every default, except
      where `meta` already had a value. */
  function WithDefaults(meta: map<string, real>, defaults: map<string, real>): map<string, real>
  {
    defaults + meta
  }

  /** `persist_defaults` keeps every value already in `meta` and adds every
      name of the default table. */
  lemma WithDefaultsKeepsMeta(meta: map<string, real>, defaults: map<string, real>)
    ensures WithDefaults(meta, defaults).Keys == meta.Keys + defaults.Keys
    ensures forall i :: i in meta ==> WithDefaults(meta, defaults)[i] == meta[i]
    ensures forall i :: i in defaults && i !in meta ==> WithDefaults(meta, defaults)[i] == defaults[i]
  {
  }

  /** Persisting twice is persisting once. */
  lemma WithDefaultsIdempotent(meta: map<string, real>, defaults: map<string, real>)
    ensures WithDefaults(WithDefaults(meta, defaults), defaults) == WithDefaults(meta, defaults)
  {
  }

  /** Persisting changes no attribute read, and afterwards every read of a
      persisted name is independent of the default table, as long as the
      table still names it. */
  lemma WithDefaultsSelfContained(meta: map<string, real>, defaults: map<string, real>,
                                  later: map<string, real>, i: string)
    requires i in defaults
    ensures CueLookup(WithDefaults(meta, defaults), defaults, i) == CueLookup(meta, defaults, i)
    ensures i in later ==> CueLookup(WithDefaults(meta, defaults), later, i) == CueLookup(meta, defaults, i)
  {
  }

  /** A group or a cue. Fields are those of `DimmerGroup.__init__`, plus the
      private discard-zero flag of `Group` and the `meta` table of `Cue`. */
  class DimmerGroup {
    const kind: Kind
    var id: EntityId
    var channels: map<ChannelId, real>
    var nested: map<EntityId, real>
    var level: real
    var name: string
    /** `_groups`: the registry used to look up nested ids, or `None`. */
    var groups: Registry?
    /** `Group.__discard_zero`, the negation of `keep_zeros`. */
    var discardZero: bool
    /** `Cue.meta`: the cue's timing attributes. */
    var meta: map<string, real>

    /** `Group(id, group_registry)` or `Cue(id, group_registry)`. */
    constructor (kind: Kind, id: EntityId, groups: Registry?)
      ensures this.kind == kind && this.id == id && this.groups == groups
      ensures channels == map[] && nested == map[] && level == 0.0 && name == ""
      ensures discardZero && meta == map[]
    {
      this.kind := kind;
      this.id := id;
      this.groups := groups;
      channels := map[];
      nested := map[];
      level := 0.0;
      name := "";
      discardZero := true;
      meta := map[];
    }

    /** `get_dimmers(level)`. A given level is stored first. With no nested
        references the result is every channel scaled by the stored level
        and 255 and rounded. A nested reference is never resolved: the lookup
        through a missing back-reference raises `TypeError`, a missing id
        raises `KeyError`, and a found entity recurses in `get_dimmers_at`
        until `RecursionError`. Which reference is looked up first depends on
        the dictionary's order, which this model leaves open. */
    method GetDimmers(lvl: Option<real>) returns (r: Result<map<ChannelId, int>>)
      modifies this`level
      ensures level == if lvl.Some? then lvl.value else old(level)
      ensures nested == map[] ==> r == Ok(Scaled(channels, level))
      ensures nested != map[] && groups == null ==> r == Err(TypeError)
      ensures nested != map[] && groups != null ==> r == Err(KeyError) || r == Err(RecursionError)
      ensures nested != map[] && groups != null && (forall k :: k in nested ==> k !in groups.entries) ==>
                r == Err(KeyError)
      ensures nested != map[] && groups != null && (forall k :: k in nested ==> k in groups.entries) ==>
                r == Err(RecursionError)
    {
      if lvl.Some? {
        level := lvl.value;
      }
      if nested != map[] {
        var obj :| obj in nested;
        if groups == null {
          return Err(TypeError);
        }
        if obj !in groups.entries {
          return Err(KeyError);
        }
        return GetDimmersAtAsWritten(nested[obj], RecursionLimit);
      }
      var levels, master := channels, level;
      var todo := levels.Keys;
      var dimmers: map<ChannelId, int> := map[];
      while todo != {}
        invariant levels == channels && master == level
        invariant todo <= levels.Keys
        invariant dimmers.Keys == levels.Keys - todo
        invariant forall d :: d in dimmers ==> dimmers[d] == Scaled(levels, master)[d]
        decreases todo
      {
        var d :| d in todo;
        ScaledAt(levels, master, d);
        dimmers := dimmers[d := DeviceLevel(levels[d], master)];
        todo := todo - {d};
      }
      assert dimmers == Scaled(levels, master);
      return Ok(dimmers);
    }

    // --- Group ---

    /** `Group.keep_zeros` (getter). */
    function KeepZeros(): (keep: bool)
      reads this
      requires kind == GroupKind
      ensures keep <==> !discardZero
    {
      !discardZero
    }

    /** `Group.keep_zeros = val`: the getter reads back what was set. */
    method SetKeepZeros(val: bool)
      requires kind == GroupKind
      modifies this`discardZero
      ensures KeepZeros() == val
    {
      discardZero := !val;
    }

    /** `Group.__getitem__`: the stored level of a channel, `KeyError` if none. */
    function ChannelLevel(i: ChannelId): (r: Result<real>)
      reads this
      requires kind == GroupKind
      ensures r.Ok? <==> i in channels
      ensures r.Ok? ==> r.value == channels[i]
      ensures r.Err? ==> r.error == KeyError
    {
      if i in channels then Ok(channels[i]) else Err(KeyError)
    }

    /** `Group.__setitem__`. With zeros discarded (the default), a 0 removes the
        channel, silently if it is absent. Any other value, or any value once
        `keep_zeros` is on, is validated: out of [0,1] it raises and changes
        nothing, otherwise it is stored under `i` and no other channel changes. */
    method SetChannelLevel(i: ChannelId, val: real) returns (o: Outcome)
      requires kind == GroupKind
      modifies this`channels
      ensures !KeepZeros() && val == 0.0 ==> o == Pass && channels == old(channels) - {i}
      ensures !(!KeepZeros() && val == 0.0) ==> o == VerifyLevel(val)
      ensures !(!KeepZeros() && val == 0.0) && o.Fail? ==> channels == old(channels)
      ensures !(!KeepZeros() && val == 0.0) && o.Pass? ==> channels == old(channels)[i := val]
    {
      if discardZero && val == 0.0 {
        channels := channels - {i};
        return Pass;
      }
      o := VerifyLevel(val);
      if o.Pass? {
        channels := channels[i := val];
      }
    }

    /** `Group.setzero`: an explicit 0, whatever `keep_zeros` says. */
    method SetZero(i: ChannelId)
      requires kind == GroupKind
      modifies this`channels
      ensures channels == old(channels)[i := 0.0]
      ensures ChannelLevel(i) == Ok(0.0)
    {
      channels := channels[i := 0.0];
    }

    // --- Cue ---

    /** `Cue.__getitem__` on the configured default table. */
    function Meta(i: string, defaults: map<string, real>): (r: Result<real>)
      reads this
      requires kind == CueKind
      ensures r.Err? <==> i !in defaults
      ensures r.Err? ==> r.error == MissingDefaultError("cue", i)
      ensures r.Ok? && i in meta ==> r.value == meta[i]
      ensures r.Ok? && i !in meta ==> r.value == defaults[i]
    {
      CueLookup(meta, defaults, i)
    }

    /** `Cue.__setitem__`: store an attribute in `meta`. */
    method SetMeta(i: string, val: real)
      requires kind == CueKind
      modifies this`meta
      ensures meta == old(meta)[i := val]
    {
      meta := meta[i := val];
    }

    /** `Cue.persist_defaults`: `setdefault` for every entry of the default table. */
    method PersistDefaults(defaults: map<string, real>)
      requires kind == CueKind
      modifies this`meta
      ensures meta == WithDefaults(old(meta), defaults)
    {
      var todo := defaults.Keys;
      while todo != {}
        invariant todo <= defaults.Keys
        invariant meta == WithDefaults(old(meta), defaults - todo)
        decreases todo
      {
        var i :| i in todo;
        if i !in meta {
          meta := meta[i := defaults[i]];
        }
        todo := todo - {i};
      }
      assert defaults - {} == defaults;
    }

    /** `Cue.add_group`: the intensity is validated as a level in [0,1]
        before the reference is stored; on failure nothing changes. */
    method AddGroup(g: EntityId, i: real) returns (o: Outcome)
      requires kind == CueKind
      modifies this`nested
      ensures o == VerifyLevel(i)
      ensures o.Pass? ==> nested == old(nested)[g := i]
      ensures o.Fail? ==> nested == old(nested)
    {
      o := VerifyLevel(i);
      if o.Pass? {
        nested := nested[g := i];
      }
    }

    /** `Cue.remove_group`: `del`, so an absent id raises `KeyError`. */
    method RemoveGroup(g: EntityId) returns (o: Outcome)
      requires kind == CueKind
      modifies this`nested
      ensures o == Pass <==> g in old(nested)
      ensures o.Pass? ==> nested == old(nested) - {g}
      ensures o.Fail? ==> o.error == KeyError && nested == old(nested)
    {
      if g !in nested {
        return Fail(KeyError);
      }
      nested := nested - {g};
      return Pass;
    }

    /** `Cue.add_channel`: validated like any level; a 0 is stored. */
    method AddChannel(c: ChannelId, i: real) returns (o: Outcome)
      requires kind == CueKind
      modifies this`channels
      ensures o == VerifyLevel(i)
      ensures o.Pass? ==> channels == old(channels)[c := i]
      ensures o.Fail? ==> channels == old(channels)
    {
      o := VerifyLevel(i);
      if o.Pass? {
        channels := channels[c := i];
      }
    }

    /** `Cue.remove_channel`: `del`, so an absent channel raises `KeyError`. */
    method RemoveChannel(c: ChannelId) returns (o: Outcome)
      requires kind == CueKind
      modifies this`channels
      ensures o == Pass <==> c in old(channels)
      ensures o.Pass? ==> channels == old(channels) - {c}
      ensures o.Fail? ==> o.error == KeyError && channels == old(channels)
    {
      if c !in channels {
        return Fail(KeyError);
      }
      channels := channels - {c};
      return Pass;
    }
  }

  /** `Registry(cls)`: entities of one kind by id. */
  class Registry {
    const cls: Kind
    var entries: map<EntityId, DimmerGroup>

    constructor (cls: Kind)
      ensures this.cls == cls && entries == map[]
    {
      this.cls := cls;
      entries := map[];
    }

    /** `new(id)`: a fresh entity of the registry's kind, with no registry
        back-reference, stored at `id` over whatever was there, and returned. */
    method New(id: EntityId) returns (e: DimmerGroup)
      modifies this`entries
      ensures fresh(e)
      ensures e.kind == cls && e.id == id && e.groups == null
      ensures e.channels == map[] && e.nested == map[] && e.level == 0.0 && e.name == ""
      ensures e.discardZero && e.meta == map[]
      ensures entries == old(entries)[id := e]
    {
      e := new DimmerGroup(cls, id, null);
      entries := entries[id := e];
    }

    /** `add_binary(b)`, with the decoding of `b` given as `decoded`: the
        entity is stored under its own id and returned; a blob that does not
        decode raises and changes nothing. */
    method AddBinary(decoded: Result<DimmerGroup>) returns (r: Result<DimmerGroup>)
      modifies this`entries
      ensures r == decoded
      ensures decoded.Ok? ==> entries == old(entries)[decoded.value.id := decoded.value]
      ensures decoded.Err? ==> entries == old(entries)
    {
      if decoded.Ok? {
        var obj := decoded.value;
        entries := entries[obj.id := obj];
      }
      return decoded;
    }

    /** `load(b)`, with the decoding of `b` given as `decoded`: the snapshot's
        entries are merged in (they win on a shared id) and every id the
        snapshot lacks keeps its entity. */
    method Load(decoded: Result<map<EntityId, DimmerGroup>>) returns (o: Outcome)
      modifies this`entries
      ensures o.Pass? <==> decoded.Ok?
      ensures decoded.Ok? ==> entries.Keys == old(entries).Keys + decoded.value.Keys
      ensures decoded.Ok? ==> forall k :: k in decoded.value ==> entries[k] == decoded.value[k]
      ensures decoded.Ok? ==> forall k :: k in old(entries) && k !in decoded.value ==> entries[k] == old(entries)[k]
      ensures decoded.Err? ==> o == Fail(decoded.error) && entries == old(entries)
    {
      if decoded.Err? {
        return Fail(decoded.error);
      }
      entries := entries + decoded.value;
      return Pass;
    }
  }
}
