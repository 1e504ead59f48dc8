# Lighting controller core: a Dafny model

This project models the core of a DMX lighting controller. Channel levels are
normalised to [0,1] and turned into device levels in [0,255] on output.
Groups and cues (`DimmerGroup`s) hold explicit channel levels and weighted
references to other groups, and are kept in keyed registries. The controller
owns the group and cue registries and the list of connected clients. It sends
each client a snapshot when it connects, relays DMX input, and on every
update sets the universe, broadcasts the new dimmer map and asks the saver to
save.

Modules, one per concern:

- `Levels` (`levels.dfy`): the core's exceptions, `_verify_level`, Python's
  `round` (half to even) written out, and the scaling of normalised levels to
  device levels.
- `Data` (`data.dfy`): the `DimmerGroup` class with its `Group` and `Cue`
  variants (one class with a constant `kind` tag), and the `Registry` class.
  Python exceptions are `Outcome`/`Result` values. Each method states its
  whole new state and its error cases.
- `Resolver` (`resolver.dfy`): the nested-group mixing that the
  `DimmerGroup` docstring describes, on values. Nested results are combined
  highest-takes-precedence (HTP), explicit channels override them, and the
  master level is applied last. The module also holds the fold as the source
  writes it, next to a counterexample.
- `Control` (`control.dfy`): the `Controller` class. Every call it makes into
  a client, the universe driver or the saver is appended to a `log` of
  events. The order and recipients of messages are proved from that log.

The model keeps these behaviours of the code, which a caller may not expect:

- `Cue.remove_channel`, `Cue.remove_group` and `unregister_client` use `del`
  and `list.remove`. So an absent key or client raises (`KeyError`,
  `ValueError`) instead of being ignored.
- Nothing detects cycles of nested references. As written, any nested
  reference that is looked up ends in `RecursionError`, because
  `get_dimmers_at` only calls itself (see Findings).
- Entities created through `Registry.new` have no registry back-reference.
  So in such an entity any nested reference raises `TypeError`.
- A nested intensity is validated as a level in [0,1] by `add_group`. But
  `get_dimmers_at` treats it as a device level and divides it by 255.
  `Resolver.ResolveAt` keeps that division, so a reference added at 0.5
  resolves its group at master level 0.5/255.

## Model

| member | source | states |
|---|---|---|
| Levels.VerifyLevel | plc/core/data.py:10-12 | a level passes exactly when it lies in the closed interval [0,1]; otherwise `InvalidLevelError` |
| Levels.RoundHalfEven | plc/core/data.py:59 | `round` gives an integer within one half of its argument, and the even one on a tie |
| Levels.RoundHalfEvenUnique | plc/core/data.py:59 | any integer that is nearest and even on a tie is the rounded value, so the two properties define `round` |
| Levels.RoundWhole | plc/core/data.py:59 | a whole number rounds to itself |
| Levels.Scaled | plc/core/data.py:57-59 | the final pass rescales every channel it is given and adds or drops none |
| Levels.DeviceLevelInRange | plc/core/data.py:59 | a level in [0,1] at a master level in [0,1] gives a device level in [0,255] |
| Levels.ScaledIsDeviceLevel | plc/core/data.py:57-59 | with valid levels and master level, the output has exactly the input's channels, each in [0,255] |
| Levels.ScaledFullAtWholeDeviceLevel | plc/core/data.py:57-59 | at full master level a channel stored at k/255 comes out as exactly k |
| Data.GetDimmersAtAsWritten | plc/core/data.py:46-47 | `get_dimmers_at`, whatever its level and stack depth, never returns a map: it always ends in `RecursionError` |
| Data.CueLookup | plc/core/data.py:102-106 | a cue attribute read fails with `MissingDefaultError("cue", i)` exactly when the default table lacks `i`, even if `meta` has it; otherwise the value in `meta` wins over the default |
| Data.WithDefaultsKeepsMeta | plc/core/data.py:117-119 | persisting defaults keeps every value already set and adds every name of the default table, at its default |
| Data.WithDefaultsIdempotent | plc/core/data.py:117-119 | persisting defaults twice is the same as persisting them once |
| Data.WithDefaultsSelfContained | plc/core/data.py:117-119 | persisting changes no attribute read; afterwards reads no longer depend on the defaults' values |
| Data.DimmerGroup.constructor | plc/core/data.py:38-44 | a new entity has no channels, no nested references, level 0, an empty name, the given back-reference, zeros discarded and no metadata |
| Data.DimmerGroup.GetDimmers | plc/core/data.py:49-60 | a given level is stored first; without nested references the result is every channel scaled by the level; with any nested reference the result is `TypeError` (no back-reference), `KeyError` (unknown id) or `RecursionError` (known id) |
| Data.DimmerGroup.KeepZeros | plc/core/data.py:71-73 | `keep_zeros` is on exactly when zeros are not discarded; the contract of `SetChannelLevel` is stated through it |
| Data.DimmerGroup.SetKeepZeros | plc/core/data.py:71-77 | the `keep_zeros` getter reads back the value just set |
| Data.DimmerGroup.ChannelLevel | plc/core/data.py:79-80 | a group's channel read gives the stored level, and `KeyError` exactly when the channel is absent |
| Data.DimmerGroup.SetChannelLevel | plc/core/data.py:82-90 | with zeros discarded a 0 removes the channel, absent or not; any other write is validated, stores the level under that channel only, and on failure changes nothing |
| Data.DimmerGroup.SetZero | plc/core/data.py:92-93 | stores an explicit 0 whatever `keep_zeros` says, so that reading the channel gives 0 |
| Data.DimmerGroup.Meta | plc/core/data.py:102-106 | on a cue, an attribute read fails with `MissingDefaultError("cue", i)` exactly when the default table lacks `i`; otherwise `meta`'s value wins over the default |
| Data.DimmerGroup.SetMeta | plc/core/data.py:108-109 | a cue attribute write sets that name in `meta` and nothing else |
| Data.DimmerGroup.PersistDefaults | plc/core/data.py:117-119 | the cue's metadata becomes its old metadata completed by the default table (see the `WithDefaults` lemmas) |
| Data.DimmerGroup.AddGroup | plc/core/data.py:121-126 | the intensity is validated first; on success the reference is added or its intensity replaced, on failure nothing changes |
| Data.DimmerGroup.RemoveGroup | plc/core/data.py:128-129 | succeeds exactly when the reference exists and then removes only it; otherwise `KeyError` and nothing changes |
| Data.DimmerGroup.AddChannel | plc/core/data.py:131-133 | the level is validated first; on success the channel is stored (a 0 included), on failure nothing changes |
| Data.DimmerGroup.RemoveChannel | plc/core/data.py:135-136 | succeeds exactly when the channel exists and then removes only it; otherwise `KeyError` and nothing changes |
| Data.Registry.constructor | plc/core/data.py:14-16 | a new registry is empty and makes entities of the given class |
| Data.Registry.New | plc/core/data.py:18-20 | a fresh entity of the registry's class, with empty channels, nested references and name, level 0 and no back-reference, replaces whatever was stored at the id and is returned |
| Data.Registry.AddBinary | plc/core/data.py:22-25 | a decoded entity is stored under its own id and returned; an undecodable blob raises and changes nothing |
| Data.Registry.Load | plc/core/data.py:30-31 | a decoded snapshot is merged in: its entries win on shared ids and every other id keeps its entity; an undecodable blob changes nothing |
| Resolver.FoldAsWrittenIsNotMax | plc/core/data.py:53-56 | the nested fold as written keeps 100/255 for results 200 then 100 on one channel, where HTP keeps 200/255 |
| Resolver.FoldAsWrittenPicksOne | plc/core/data.py:53-56 | the fold as written lights exactly the channels some nested result gives a positive level, each at one of those levels over 255 |
| Resolver.FoldHtpIsMax | plc/core/data.py:53-56 | under HTP a channel is in the fold exactly when some nested result gives it a positive level, and it then holds the largest of those levels |
| Resolver.Mix | plc/core/data.py:57-59 | the output covers the nested channels and the explicit ones, and an explicit channel comes out at its own level whatever the nested results say |
| Resolver.ResolveLeaf | plc/core/data.py:49-60 | an entity without nested references resolves to its channels scaled by the master level, as `get_dimmers` computes |
| Resolver.ResolveAtLeaf | plc/core/data.py:46-47 | the intended `get_dimmers_at` returns the referenced entity's channels at the intensity over 255 |
| Resolver.MixNestedMax | plc/core/data.py:53-59 | a mixed channel not set explicitly comes out at the highest level any nested result gives it, at the master level |
| Resolver.Resolve | plc/core/data.py:49-60 | the intended `get_dimmers` fails exactly when its nested resolution fails, with that error, which by `ResolveNestedSound` is some reference's error; otherwise it lights exactly the explicit channels and those the nested results light, which by `ResolveNestedComplete` and `ResolveNestedSound` are the references' resolutions |
| Resolver.ResolveNested | plc/core/data.py:53-54 | one result per nested reference |
| Resolver.ResolveNestedComplete | plc/core/data.py:53-54 | when nested resolution succeeds, every reference resolves and its result is among the nested results |
| Resolver.ResolveNestedSound | plc/core/data.py:53-54 | every nested result is the resolution of some reference, and a failed nested resolution is some reference's failure with the same error |
| Resolver.ResolveAt | plc/core/data.py:46-47 | the intended `get_dimmers_at` raises `RecursionError` on an exhausted stack and `KeyError` on an unknown id; a result lights at least the referenced entity's channels |
| Resolver.ResolveExplicit | plc/core/data.py:57 | in a resolved entity an explicit channel comes out at its own level at the master level, whatever the nested results say |
| Resolver.ResolveNestedMax | plc/core/data.py:53-59 | in a resolved entity any other lit channel comes out at the highest level its nested results give it |
| Control.BroadcastDelivers | plc/core/controller.py:66-67 | a broadcast sends the message to each client once per time it is in the list, and nothing to anyone else |
| Control.BroadcastOnlySends | plc/core/controller.py:66-67 | a broadcast is exactly one send per client, in list order |
| Control.UpdateDelivers | plc/core/controller.py:60-68 | an update sets the universe first and saves exactly once, last; each client is sent the very map the universe was given |
| Control.Indexed | plc/core/controller.py:36-37 | the universe snapshot maps each slot 0..n-1 to its value and has no other key |
| Control.WelcomeOnlyToNewClient | plc/core/controller.py:34-39 | the welcome goes to the new client only: the universe snapshot, then the groups registry, then the cues registry |
| Control.FirstIndex | plc/core/controller.py:42 | `list.remove` finds the first occurrence of the client |
| Control.RemoveFirst | plc/core/controller.py:42 | removal drops exactly one occurrence, the first, and keeps the others in order |
| Control.Controller.constructor | plc/core/controller.py:21-26 | without a loaded snapshot the saver gets fresh empty group and cue registries; the controller's registries are the saver's own objects; no clients |
| Control.Controller.RegisterClient | plc/core/controller.py:34-39 | the client is appended and sent the welcome, and nothing else is sent |
| Control.Controller.UnregisterClient | plc/core/controller.py:41-42 | the first occurrence of the client is removed; an unregistered client raises `ValueError` and nothing changes |
| Control.Controller.SendToAll | plc/core/controller.py:66-67 | the send loop appends exactly one broadcast of the message to the clients in order |
| Control.Controller.OnDmx | plc/core/controller.py:44-47 | an empty change sends nothing; otherwise every client is sent the change tagged "input" |
| Control.Controller.DoUpdate | plc/core/controller.py:60-68 | the new map is the raw map or the entity resolved at its stored level, and the entity is left as it was; the universe is set, every client is sent it, then the saver saves; a resolution error sends and saves nothing |

## Left out

- Logging (`plc/core/logging.py`) has no effect on the state modelled here.
- `Controller.launch`, the asyncio server and `os.fork`: I/O and processes.
- The construction of `Universe` and its `set_dimmers`: the driver is foreign code. The model records the call and leaves the universe's own list unconstrained afterwards.
- `PersistentData` is foreign. The model keeps only the flag and the registries the controller reads, and records `save()` as an event.
- `pickle`: `Registry.get_binary`, `DimmerGroup.get_binary` and the decoding in `add_binary` and `load` are not modelled. Decoding is a parameter (`decoded`), so the round trip and the copies pickle makes are not captured.
- The settings table `conf`: the cue default table is a parameter. A missing "cue" section is not modelled separately from a missing name.
- Floating point: levels are exact reals. `round` is half-to-even on the exact value, not on the binary double.
- `Cue.__getattr__` and `CUE_ATTRS`: attribute reflection; an attribute read is `Data.CueLookup` by name.
- Metadata values are modelled as reals.
- The `universe`, `data` and `ignore_input` parameters of `on_dmx` are unused by the source and are dropped.
- Data.DimmerGroup.GetDimmers: with several nested references of mixed kinds, whether `KeyError` or `RecursionError` comes first depends on dictionary order, which the model leaves open.
- Data.DimmerGroup.GetDimmers: Python's remaining stack depth is fixed at the default recursion limit, 1000. It only affects when, not whether, `RecursionError` is raised.
- Control.Controller.DoUpdate: the tag decides the payload's type ("dimmers" with a raw map, any other tag with an entity). The source's behaviour on a mismatched pair is not modelled.
- Resolver.Resolve: nested references are resolved in an unspecified order of the map. Resolution is always given its master level, so the level an entity stores (and the one a nested `get_dimmers` call stores as a side effect) is not part of the intended resolver.
- Resolver.Resolve: every nested id is looked up in the one registry `reg`. The missing back-reference of entities made by `Registry.new`, which raises `TypeError` in the code, is not part of the intended resolver; `Data.DimmerGroup.GetDimmers` models it.

## Findings

| source | as written | input that shows it | evidently intended | confidence | as-written member | corrected member |
|---|---|---|---|---|---|---|
| plc/core/data.py:46-47 | `get_dimmers_at` calls itself with the level divided by 255 and has no other branch | any entity whose nested map names a registered entity, e.g. nested `{"g2": 128}` with `g2` in its registry | resolve the referenced entity at intensity / 255, i.e. call `get_dimmers` | high; not executed | Data.GetDimmersAtAsWritten | Resolver.ResolveAtLeaf |
| plc/core/data.py:55-56 | the HTP comparison sets a device level against a stored value already divided by 255 | nested results `{5: 200}` then `{5: 100}` give 100/255 on channel 5 | keep the highest level, 200/255 | high; not executed | Resolver.FoldAsWrittenIsNotMax | Resolver.FoldHtpIsMax |
