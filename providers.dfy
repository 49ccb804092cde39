/**
 * The provider registry: a map from provider-type name to provider, the
 * list of its keys, and the resolution of an image, instance or volume id
 * to the provider that knows it, by asking every registered provider.
 *
 * A provider is seen only through its configuration and its three lookups,
 * each a function from a name or id prefix to the entity or an error. Go
 * ranges over a map in no fixed order; resolution here takes that order as
 * an explicit enumeration of the keys, and its contracts hold for every
 * enumeration.
 */
module Providers {
  import opened Wrappers
  import opened Types

  /** Capabilities of a backend. */
  datatype ProviderConfig = ProviderConfig(usePartitionTables: bool)

  datatype Provider = Provider(
    config: ProviderConfig,
    getImage: string -> Result<Image>,
    getInstance: string -> Result<Instance>,
    getVolume: string -> Result<Volume>)

  /** Go's `Providers`: provider-type name to provider. */
  type Registry = map<string, Provider>

  /** The three kinds of entity a provider is asked about. */
  datatype EntityKind = ImageEntity | InstanceEntity | VolumeEntity

  /** The provider's own lookup of `id` succeeds. */
  predicate Owns(p: Provider, kind: EntityKind, id: string)
  {
    match kind
    case ImageEntity => p.getImage(id).Ok?
    case InstanceEntity => p.getInstance(id).Ok?
    case VolumeEntity => p.getVolume(id).Ok?
  }

  function KindName(kind: EntityKind): string
  {
    match kind
    case ImageEntity => "image"
    case InstanceEntity => "instance"
    case VolumeEntity => "volume"
  }

  /** `order` lists every key of `keys` exactly once: one possible iteration order. */
  ghost predicate IsEnumeration(order: seq<string>, keys: set<string>)
  {
    && (forall i, j :: 0 <= i < j < |order| ==> order[i] != order[j])
    && (forall k :: k in order <==> k in keys)
  }

  /** Some enumeration of any finite set of keys. */
  ghost function Enumerate(keys: set<string>): (order: seq<string>)
    ensures IsEnumeration(order, keys)
    decreases keys
  {
    if keys == {} then []
    else
      var k :| k in keys;
      var rest := Enumerate(keys - {k});
      assert forall i :: 0 <= i < |rest| ==> rest[i] != k;
      [k] + rest
  }

  /** `Providers.Keys`: the map's keys, each once, in the map's iteration order. */
  method Keys(registry: Registry) returns (keys: seq<string>)
    ensures IsEnumeration(keys, registry.Keys)
    ensures |keys| == |registry|
  {
    keys := [];
    var rest := registry.Keys;
    while rest != {}
      invariant rest <= registry.Keys
      invariant forall k :: k in keys <==> k in registry && k !in rest
      invariant forall i, j :: 0 <= i < j < |keys| ==> keys[i] != keys[j]
      invariant |keys| + |rest| == |registry|
      decreases rest
    {
      var k :| k in rest;
      keys := keys + [k];
      rest := rest - {k};
    }
  }

  /**
   * The fan-out over `order`: the position of the first provider whose
   * lookup succeeds, or `None` when none does.
   */
  function FirstOwner(registry: Registry, order: seq<string>, kind: EntityKind, id: string): (r: Option<nat>)
    requires forall k :: k in order ==> k in registry
    ensures r.Some? ==> r.value < |order| && Owns(registry[order[r.value]], kind, id)
    ensures r.Some? ==> forall j :: 0 <= j < r.value ==> !Owns(registry[order[j]], kind, id)
    ensures r.None? ==> forall j :: 0 <= j < |order| ==> !Owns(registry[order[j]], kind, id)
    decreases |order|
  {
    if order == [] then None
    else if Owns(registry[order[0]], kind, id) then Some(0)
    else
      match FirstOwner(registry, order[1..], kind, id)
      case None => None
      case Some(i) => Some(i + 1)
  }

  /**
   * `ProviderForImage`, `ProviderForInstance` and `ProviderForVolume`, with
   * the map iterated in `order`: the first provider whose lookup succeeds,
   * or a not-found error.
   */
  function ProviderFor(registry: Registry, order: seq<string>, kind: EntityKind, id: string): (r: Result<Provider>)
    requires IsEnumeration(order, registry.Keys)
    ensures r.Ok? <==> exists k :: k in registry && Owns(registry[k], kind, id)
    ensures r.Ok? ==> exists k :: k in registry && registry[k] == r.value && Owns(r.value, kind, id)
    ensures r.Ok? ==> exists i :: && 0 <= i < |order| && registry[order[i]] == r.value
                                 && forall j :: 0 <= j < i ==> !Owns(registry[order[j]], kind, id)
    ensures r.Err? ==> r.message == "provider not found for " + KindName(kind) + " " + id
  {
    match FirstOwner(registry, order, kind, id)
    case Some(i) => Ok(registry[order[i]])
    case None =>
      assert forall k :: k in registry ==> !Owns(registry[k], kind, id) by {
        forall k | k in registry ensures !Owns(registry[k], kind, id) {
          assert k in order;
          var j :| 0 <= j < |order| && order[j] == k;
        }
      }
      Err("provider not found for " + KindName(kind) + " " + id)
  }

  /** `Providers.ProviderForImage`. */
  function ProviderForImage(registry: Registry, order: seq<string>, imageId: string): (r: Result<Provider>)
    requires IsEnumeration(order, registry.Keys)
    ensures r.Ok? <==> exists k :: k in registry && registry[k].getImage(imageId).Ok?
    ensures r.Ok? ==> exists k :: k in registry && registry[k] == r.value && r.value.getImage(imageId).Ok?
    ensures r.Err? ==> r.message == "provider not found for image " + imageId
  {
    ProviderFor(registry, order, ImageEntity, imageId)
  }

  /** `Providers.ProviderForInstance`. */
  function ProviderForInstance(registry: Registry, order: seq<string>, instanceId: string): (r: Result<Provider>)
    requires IsEnumeration(order, registry.Keys)
    ensures r.Ok? <==> exists k :: k in registry && registry[k].getInstance(instanceId).Ok?
    ensures r.Ok? ==> exists k :: k in registry && registry[k] == r.value && r.value.getInstance(instanceId).Ok?
    ensures r.Err? ==> r.message == "provider not found for instance " + instanceId
  {
    ProviderFor(registry, order, InstanceEntity, instanceId)
  }

  /** `Providers.ProviderForVolume`. */
  function ProviderForVolume(registry: Registry, order: seq<string>, volumeId: string): (r: Result<Provider>)
    requires IsEnumeration(order, registry.Keys)
    ensures r.Ok? <==> exists k :: k in registry && registry[k].getVolume(volumeId).Ok?
    ensures r.Ok? ==> exists k :: k in registry && registry[k] == r.value && r.value.getVolume(volumeId).Ok?
    ensures r.Err? ==> r.message == "provider not found for volume " + volumeId
  {
    ProviderFor(registry, order, VolumeEntity, volumeId)
  }

  /** With no provider registered, every resolution is a not-found error. */
  lemma EmptyRegistryNotFound(order: seq<string>, id: string)
    requires IsEnumeration(order, {})
    ensures ProviderForImage(map[], order, id) == Err("provider not found for image " + id)
    ensures ProviderForInstance(map[], order, id) == Err("provider not found for instance " + id)
    ensures ProviderForVolume(map[], order, id) == Err("provider not found for volume " + id)
  {
  }

  /**
   * When exactly one registered provider knows `id`, resolution returns that
   * provider, whatever the iteration order.
   */
  lemma SoleOwnerResolved(registry: Registry, order: seq<string>, kind: EntityKind, id: string, owner: string)
    requires IsEnumeration(order, registry.Keys)
    requires owner in registry && Owns(registry[owner], kind, id)
    requires forall k :: k in registry && k != owner ==> !Owns(registry[k], kind, id)
    ensures ProviderFor(registry, order, kind, id) == Ok(registry[owner])
  {
  }

  /**
   * When several providers know the same `id`, each of them is the answer
   * under some iteration order: resolution tolerates the collision by
   * returning whichever it asks first.
   */
  lemma EveryOwnerCanWin(registry: Registry, kind: EntityKind, id: string, owner: string)
    requires owner in registry && Owns(registry[owner], kind, id)
    ensures exists order :: IsEnumeration(order, registry.Keys) && ProviderFor(registry, order, kind, id) == Ok(registry[owner])
  {
    var rest := Enumerate(registry.Keys - {owner});
    var order := [owner] + rest;
    assert forall i :: 0 <= i < |rest| ==> rest[i] != owner;
    assert forall k :: k in order <==> k == owner || k in rest;
    assert IsEnumeration(order, registry.Keys);
    assert FirstOwner(registry, order, kind, id) == Some(0);
  }
}
