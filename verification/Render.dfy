/** Rendering a provisioning request into Crossplane resources (XRs), one per enabled capability. */
module Render {
  import opened Options
  import opened Text
  import opened Capabilities
  import opened Catalogue

  type Tags = map<string, string>
  type Spec = map<string, string>

  /** A request. The template's defaults only fill in fields that fragments and builders look at. */
  datatype Params = Params(
    requestName: string,
    space: string,                  // the namespace of the resources
    tenant: string,
    owner: string,
    costCentre: string,
    catalogueItem: string,
    defaultProvider: string,
    dimensions: Dimensions,
    businessUnit: string,
    project: string,
    dataClassification: string,
    ttl: string,
    extraTags: Tags,
    contractVersion: string,
    primaryRegion: string,
    secondaryRegion: string,
    ingressMode: string,
    egressMode: string,
    drRequired: bool,
    backupRequired: bool,
    ttlIsDate: bool,                // whether a time to live, if given, parses as a date
    caps: Capability -> CapabilityInfo)

  predicate On(p: Params, c: Capability)
  {
    p.caps(c).enabled
  }

  function ProviderOf(p: Params, c: Capability): string
  {
    ResolveProvider(p.caps(c), p.defaultProvider)
  }

  /** What a capability's parameter builder returns. */
  datatype Built = Built(fields: Spec, tags: Option<Tags>)

  /** The capability renderers: validation, the rendered part, and the parameter builder, which sees the
      part and the tags. */
  datatype Renderers = Renderers(
    validates: Capability -> bool,
    renders: Capability -> Option<Spec>,
    build: (Capability, Spec, Tags) -> Built)

  datatype Xr = Xr(kind: string, name: string, space: string, composition: string, fields: Spec, tags: Option<Tags>)

  // ---------------------------------------------------------------------------------------
  // Tags
  // ---------------------------------------------------------------------------------------

  function Optionally(key: string, value: string): Tags
  {
    if value != "" then map[key := value] else map[]
  }

  /** The tags every resource gets; the request's own tags win. */
  function TagsOf(p: Params): Tags
  {
    MandatoryTags(p) + OptionalTags(p) + p.extraTags
  }

  function MandatoryTags(p: Params): Tags
  {
    map["cost-centre" := p.costCentre, "service" := p.requestName, "environment" := p.dimensions.environment,
        "owner" := p.owner, "managed-by" := "release-engine", "tenant" := p.tenant,
        "catalogue-item" := p.catalogueItem]
  }

  function OptionalTags(p: Params): Tags
  {
    Optionally("business-unit", p.businessUnit) + Optionally("project", p.project)
    + Optionally("data-classification", p.dataClassification) + Optionally("ttl", p.ttl)
  }

  /** Which field of the request a mandatory tag carries. */
  predicate Mandatory(p: Params, k: string, v: string)
  {
    || (k == "cost-centre" && v == p.costCentre) || (k == "service" && v == p.requestName)
    || (k == "environment" && v == p.dimensions.environment) || (k == "owner" && v == p.owner)
    || (k == "managed-by" && v == "release-engine") || (k == "tenant" && v == p.tenant)
    || (k == "catalogue-item" && v == p.catalogueItem)
  }

  /** Which field an optional tag carries; without a value there is no tag. */
  predicate Optional(p: Params, k: string, v: string)
  {
    v != "" && (|| (k == "business-unit" && v == p.businessUnit) || (k == "project" && v == p.project)
                || (k == "data-classification" && v == p.dataClassification) || (k == "ttl" && v == p.ttl))
  }

  lemma MandatoryIff(p: Params, k: string, v: string)
    ensures k in MandatoryTags(p) && MandatoryTags(p)[k] == v <==> Mandatory(p, k, v)
  {
  }

  lemma OptionalIff(p: Params, k: string, v: string)
    ensures k in OptionalTags(p) && OptionalTags(p)[k] == v <==> Optional(p, k, v)
  {
  }

  lemma NamesApart(p: Params, k: string, v: string, w: string)
    ensures !(Mandatory(p, k, v) && Optional(p, k, w))
  {
  }

  predicate Tagged(p: Params, k: string, v: string)
  {
    if k in p.extraTags then v == p.extraTags[k] else Mandatory(p, k, v) || Optional(p, k, v)
  }

  /** A resource is tagged with the request's own tags and, under names these leave free, with the fields that belong to
      the mandatory and optional tags; and with nothing else. */
  lemma TagsByField(p: Params, k: string, v: string)
    ensures k in TagsOf(p) && TagsOf(p)[k] == v <==> Tagged(p, k, v)
  {
    MandatoryIff(p, k, v);
    OptionalIff(p, k, v);
    if k !in p.extraTags && k in OptionalTags(p) {
      OptionalIff(p, k, OptionalTags(p)[k]);
      NamesApart(p, k, v, OptionalTags(p)[k]);
    }
  }

  lemma TagsNeverEmpty(p: Params)
    ensures TagsOf(p) != map[]
  {
    assert "owner" in MandatoryTags(p);
    assert "owner" in TagsOf(p);
  }

  // ---------------------------------------------------------------------------------------
  // Parts
  // ---------------------------------------------------------------------------------------

  /** The fragments, and the parts they render, by name. */
  datatype Key = TagsKey | ComplianceKey | CapKey(c: Capability) | OtherKey(name: string)

  function KeyName(k: Key): string
  {
    match k
    case TagsKey => "tags"
    case ComplianceKey => "compliance"
    case CapKey(c) => Name(c)
    case OtherKey(name) => name
  }

  /** Any other name is really another one. */
  ghost predicate Proper(k: Key)
  {
    k.OtherKey? ==> k.name != "tags" && k.name != "compliance" && forall c :: Name(c) != k.name
  }

  datatype Part = TagPart(tags: Tags) | SpecPart(spec: Spec)

  const ALL_FRAGMENTS: seq<Key> := [
    TagsKey, ComplianceKey, CapKey(Kubernetes), CapKey(Vm), CapKey(Database), CapKey(Cache),
    CapKey(ObjectStorage), CapKey(BlockStorage), CapKey(FileStorage), CapKey(Vpc), CapKey(LoadBalancer),
    CapKey(Dns), CapKey(Cdn), CapKey(Messaging), CapKey(Identity), CapKey(Secrets), CapKey(Observability)]

  lemma EveryCapabilityHasFragment(c: Capability)
    ensures CapKey(c) in ALL_FRAGMENTS
  {
    match c
    case BlockStorage => assert ALL_FRAGMENTS[7] == CapKey(c);
    case Cache => assert ALL_FRAGMENTS[5] == CapKey(c);
    case Cdn => assert ALL_FRAGMENTS[12] == CapKey(c);
    case Database => assert ALL_FRAGMENTS[4] == CapKey(c);
    case Dns => assert ALL_FRAGMENTS[11] == CapKey(c);
    case FileStorage => assert ALL_FRAGMENTS[8] == CapKey(c);
    case Identity => assert ALL_FRAGMENTS[14] == CapKey(c);
    case Kubernetes => assert ALL_FRAGMENTS[2] == CapKey(c);
    case LoadBalancer => assert ALL_FRAGMENTS[10] == CapKey(c);
    case Messaging => assert ALL_FRAGMENTS[13] == CapKey(c);
    case ObjectStorage => assert ALL_FRAGMENTS[6] == CapKey(c);
    case Observability => assert ALL_FRAGMENTS[16] == CapKey(c);
    case Secrets => assert ALL_FRAGMENTS[15] == CapKey(c);
    case Vm => assert ALL_FRAGMENTS[3] == CapKey(c);
    case Vpc => assert ALL_FRAGMENTS[9] == CapKey(c);
  }

  /** A capability fragment is used when its capability is enabled. */
  predicate Usable(p: Params, o: Renderers, k: Key)
  {
    k.CapKey? && On(p, k.c) ==> o.validates(k.c) && o.renders(k.c).Some?
  }

  /** The parts handed on to the XR builder after the given fragments. */
  ghost predicate PartsOf(p: Params, o: Renderers, ks: seq<Key>, parts: map<Key, Part>)
  {
    && (forall c :: CapKey(c) in parts <==> CapKey(c) in ks && On(p, c))
    && (forall c :: CapKey(c) in parts ==> o.renders(c).Some? && parts[CapKey(c)] == SpecPart(o.renders(c).value))
    && (TagsKey in parts <==> TagsKey in ks)
    && (TagsKey in parts ==> parts[TagsKey] == TagPart(TagsOf(p)))
    && forall k :: k in parts ==> k.TagsKey? || k.CapKey?
  }

  lemma AddCapability(p: Params, o: Renderers, ks: seq<Key>, parts: map<Key, Part>, c: Capability)
    requires PartsOf(p, o, ks, parts) && On(p, c) && o.renders(c).Some?
    ensures PartsOf(p, o, ks + [CapKey(c)], parts[CapKey(c) := SpecPart(o.renders(c).value)])
  {
  }

  lemma AddTags(p: Params, o: Renderers, ks: seq<Key>, parts: map<Key, Part>)
    requires PartsOf(p, o, ks, parts)
    ensures PartsOf(p, o, ks + [TagsKey], parts[TagsKey := TagPart(TagsOf(p))])
  {
  }

  lemma AddNothing(p: Params, o: Renderers, ks: seq<Key>, parts: map<Key, Part>, k: Key)
    requires PartsOf(p, o, ks, parts) && !k.TagsKey? && !(k.CapKey? && On(p, k.c))
    ensures PartsOf(p, o, ks + [k], parts)
  {
  }

  /** The loop over the fragments. The compliance part is rendered and then left out, for no builder
      takes it. */
  method CollectParts(p: Params, o: Renderers, ks: seq<Key>) returns (r: Option<map<Key, Part>>)
    ensures r.Some? <==> forall k :: k in ks ==> Usable(p, o, k)
    ensures r.Some? ==> PartsOf(p, o, ks, r.value)
  {
    var parts: map<Key, Part> := map[];
    for i := 0 to |ks|
      invariant forall j :: 0 <= j < i ==> Usable(p, o, ks[j])
      invariant PartsOf(p, o, ks[..i], parts)
    {
      assert ks[..i + 1] == ks[..i] + [ks[i]];
      if ks[i].CapKey? {
        var c := ks[i].c;
        if On(p, c) {
          if !o.validates(c) || o.renders(c).None? {
            assert !Usable(p, o, ks[i]);
            return None;
          }
          AddCapability(p, o, ks[..i], parts, c);
          parts := parts[ks[i] := SpecPart(o.renders(c).value)];
        } else {
          AddNothing(p, o, ks[..i], parts, ks[i]);
        }
      } else if ks[i].TagsKey? {
        TagsNeverEmpty(p);
        AddTags(p, o, ks[..i], parts);
        parts := parts[TagsKey := TagPart(TagsOf(p))];
      } else {
        AddNothing(p, o, ks[..i], parts, ks[i]);
      }
    }
    assert ks[..|ks|] == ks;
    r := Some(parts);
  }

  // ---------------------------------------------------------------------------------------
  // Sorting keys
  // ---------------------------------------------------------------------------------------

  lemma KeyNamesDiffer(a: Key, b: Key)
    requires a != b && Proper(a) && Proper(b)
    ensures KeyName(a) != KeyName(b)
  {
    if a.CapKey? && b.CapKey? {
      NamesDiffer(a.c, b.c);
    } else {
      Reserved(if a.CapKey? then a.c else if b.CapKey? then b.c else Vm);
    }
  }

  lemma Reserved(c: Capability)
    ensures Name(c) != "tags" && Name(c) != "compliance"
  {
    assert "tags"[0] == 't' && "compliance"[1] == 'o';
  }

  ghost predicate KeysAscend(ks: seq<Key>)
  {
    forall i, j :: 0 <= i < j < |ks| ==> Less(KeyName(ks[i]), KeyName(ks[j]))
  }

  /** Inserts a key into an ascending list. */
  method InsertKey(k: Key, ks: seq<Key>) returns (r: seq<Key>)
    requires KeysAscend(ks) && k !in ks && Proper(k) && forall x :: x in ks ==> Proper(x)
    ensures KeysAscend(r) && forall x :: x in r <==> x == k || x in ks
  {
    var i := 0;
    while i < |ks| && Less(KeyName(ks[i]), KeyName(k))
      invariant i <= |ks|
      invariant forall j :: 0 <= j < i ==> Less(KeyName(ks[j]), KeyName(k))
    {
      i := i + 1;
    }
    r := ks[..i] + [k] + ks[i..];
    Splice(k, ks, i);
  }

  lemma Splice(k: Key, ks: seq<Key>, i: nat)
    requires KeysAscend(ks) && k !in ks && i <= |ks| && Proper(k) && forall x :: x in ks ==> Proper(x)
    requires forall j :: 0 <= j < i ==> Less(KeyName(ks[j]), KeyName(k))
    requires i < |ks| ==> !Less(KeyName(ks[i]), KeyName(k))
    ensures KeysAscend(ks[..i] + [k] + ks[i..])
    ensures forall x :: x in ks[..i] + [k] + ks[i..] <==> x == k || x in ks
  {
    forall j | i <= j < |ks| ensures Less(KeyName(k), KeyName(ks[j])) {
      KeyNamesDiffer(k, ks[i]);
      LessTotal(KeyName(k), KeyName(ks[i]));
      if i < j {
        LessTransitive(KeyName(k), KeyName(ks[i]), KeyName(ks[j]));
      }
    }
    assert ks == ks[..i] + ks[i..];
    Joined(k, ks[..i], ks[i..]);
  }

  lemma Joined(k: Key, a: seq<Key>, b: seq<Key>)
    requires KeysAscend(a + b)
    requires forall j :: 0 <= j < |a| ==> Less(KeyName(a[j]), KeyName(k))
    requires forall j :: 0 <= j < |b| ==> Less(KeyName(k), KeyName(b[j]))
    ensures KeysAscend(a + [k] + b)
  {
    var t, u := a + b, a + [k] + b;
    forall i, j | 0 <= i < j < |u| ensures Less(KeyName(u[i]), KeyName(u[j])) {
      if i != |a| && j != |a| {
        var i', j' := if i < |a| then i else i - 1, if j < |a| then j else j - 1;
        assert u[i] == t[i'] && u[j] == t[j'];
      }
    }
  }

  /** The keys of a map, taken in any order and sorted by name. */
  method SortKeys(keys: set<Key>) returns (ks: seq<Key>)
    requires forall k :: k in keys ==> Proper(k)
    ensures KeysAscend(ks) && forall k :: k in ks <==> k in keys
  {
    var rest := keys;
    ks := [];
    while rest != {}
      invariant rest <= keys && KeysAscend(ks)
      invariant forall k :: k in ks <==> k in keys && k !in rest
    {
      var k :| k in rest;
      rest := rest - {k};
      ks := InsertKey(k, ks);
    }
  }

  // ---------------------------------------------------------------------------------------
  // Building the resources
  // ---------------------------------------------------------------------------------------

  predicate Supported(provider: string)
  {
    provider == "aws" || provider == "azure" || provider == "gcp"
  }

  /** The list the code looks providers up in, the same for every capability. */
  const SUPPORTED_PROVIDERS := ["aws", "azure", "gcp"]

  lemma SupportedListed(provider: string)
    ensures provider in SUPPORTED_PROVIDERS <==> Supported(provider)
  {
    assert SUPPORTED_PROVIDERS[0] == "aws" && SUPPORTED_PROVIDERS[1] == "azure" && SUPPORTED_PROVIDERS[2] == "gcp";
  }

  /** The resource that stands for a capability. Given tags win over the builder's own. */
  ghost predicate Describes(p: Params, o: Renderers, tags: Tags, spec: Spec, c: Capability, x: Xr)
  {
    && x.kind == Kind(c) && x.name == p.requestName + "-" + Name(c) && x.space == p.space
    && Supported(ProviderOf(p, c)) && x.composition == Lower(Name(c)) + "-" + ProviderOf(p, c)
    && var built := o.build(c, spec, tags);
       x.fields == built.fields
       && x.tags == if tags == map[] then built.tags else Some(built.tags.GetOr(map[]) + tags)
  }

  type Parts = map<Key, Part>

  /** The tags among the parts, in either form. */
  function TagsIn(parts: Parts): Tags
  {
    if TagsKey !in parts then map[]
    else match parts[TagsKey]
      case TagPart(tags) => tags
      case SpecPart(spec) => spec
  }

  /** What the builder of a capability is given: nothing if the part has the wrong form. */
  function SpecIn(parts: Parts, c: Capability): Spec
    requires CapKey(c) in parts
  {
    match parts[CapKey(c)]
    case TagPart(_) => map[]
    case SpecPart(spec) => spec
  }

  /** The capabilities among these keys that are enabled, in ascending order of their names, and their resources. */
  ghost predicate Resources(p: Params, o: Renderers, parts: Parts, keys: set<Key>, order: seq<Capability>, xrs: seq<Xr>)
    requires keys <= parts.Keys
  {
    && |xrs| == |order| && Ascending(order)
    && (forall c :: c in order <==> CapKey(c) in keys && On(p, c))
    && forall i :: 0 <= i < |xrs| ==> DescribedAt(p, o, parts, order[i], xrs[i])
  }

  ghost predicate DescribedAt(p: Params, o: Renderers, parts: Parts, c: Capability, x: Xr)
  {
    CapKey(c) in parts && Describes(p, o, TagsIn(parts), SpecIn(parts, c), c, x)
  }

  /** The keys in a list, as a set. */
  function KeySet(ks: seq<Key>): set<Key>
  {
    set k | k in ks
  }

  lemma NextResource(p: Params, o: Renderers, parts: Parts, done: seq<Key>, c: Capability, order: seq<Capability>, xrs: seq<Xr>, x: Xr)
    requires KeySet(done + [CapKey(c)]) <= parts.Keys && KeySet(done) <= parts.Keys
    requires Resources(p, o, parts, KeySet(done), order, xrs) && KeysAscend(done + [CapKey(c)]) && On(p, c)
    requires DescribedAt(p, o, parts, c, x)
    ensures Resources(p, o, parts, KeySet(done + [CapKey(c)]), order + [c], xrs + [x])
  {
    var all := done + [CapKey(c)];
    forall i | 0 <= i < |order| ensures Less(Name(order[i]), Name(c)) {
      assert order[i] in order && CapKey(order[i]) in KeySet(done);
      var j :| 0 <= j < |done| && done[j] == CapKey(order[i]);
      assert all[j] == done[j] && all[|done|] == CapKey(c);
    }
  }

  /** A key that stands for no enabled capability adds nothing. */
  lemma SameResources(p: Params, o: Renderers, parts: Parts, done: seq<Key>, k: Key, order: seq<Capability>, xrs: seq<Xr>)
    requires KeySet(done + [k]) <= parts.Keys && KeySet(done) <= parts.Keys
    requires Resources(p, o, parts, KeySet(done), order, xrs) && !(k.CapKey? && On(p, k.c))
    ensures Resources(p, o, parts, KeySet(done + [k]), order, xrs)
  {
  }

  /** The parts that can be built from: tags, and capabilities whose provider, if enabled, is supported. */
  predicate Buildable(p: Params, k: Key)
  {
    k.TagsKey? || (k.CapKey? && (On(p, k.c) ==> Supported(ProviderOf(p, k.c))))
  }

  function BuildXR(p: Params, o: Renderers, parts: Parts, c: Capability): (x: Xr)
    requires CapKey(c) in parts && Supported(ProviderOf(p, c))
    ensures DescribedAt(p, o, parts, c, x)
  {
    var tags := TagsIn(parts);
    var built := o.build(c, SpecIn(parts, c), tags);
    Xr(Kind(c), p.requestName + "-" + Name(c), p.space, Lower(Name(c)) + "-" + ProviderOf(p, c), built.fields,
       if tags == map[] then built.tags else Some(built.tags.GetOr(map[]) + tags))
  }

  /** `BuildXRs`, on any parts. */
  method BuildXRs(p: Params, o: Renderers, parts: Parts) returns (r: Option<seq<Xr>>, ghost order: seq<Capability>)
    requires forall k :: k in parts ==> Proper(k)
    ensures r.Some? <==> forall k :: k in parts ==> Buildable(p, k)
    ensures r.Some? ==> Resources(p, o, parts, parts.Keys, order, r.value)
  {
    var keys := SortKeys(parts.Keys);
    var xrs := [];
    order := [];
    for i := 0 to |keys|
      invariant KeySet(keys[..i]) <= parts.Keys && Resources(p, o, parts, KeySet(keys[..i]), order, xrs)
      invariant forall j :: 0 <= j < i ==> Buildable(p, keys[j])
    {
      var k := keys[i];
      assert keys[..i + 1] == keys[..i] + [k] && k in keys;
      if !k.TagsKey? {
        if !k.CapKey? {
          assert !Buildable(p, k);
          return None, [];
        }
      }
      if k.CapKey? && p.caps(k.c).enabled {
        var provider := ResolveProvider(p.caps(k.c), p.defaultProvider);
        SupportedListed(provider);
        if provider !in SUPPORTED_PROVIDERS {
          assert !Buildable(p, k);
          return None, [];
        }
        var x := BuildXR(p, o, parts, k.c);
        NextResource(p, o, parts, keys[..i], k.c, order, xrs, x);
        xrs := xrs + [x];
        order := order + [k.c];
      } else {
        SameResources(p, o, parts, keys[..i], k, order, xrs);
      }
    }
    assert keys[..|keys|] == keys && KeySet(keys) == parts.Keys;
    r := Some(xrs);
  }

  // ---------------------------------------------------------------------------------------
  // The manifest of a request
  // ---------------------------------------------------------------------------------------

  function TagsFor(p: Params, ks: seq<Key>): Tags
  {
    if TagsKey in ks then TagsOf(p) else map[]
  }

  /** Exactly one resource for each capability that is enabled and has a fragment, in ascending order of
      capability names. */
  ghost predicate Manifest(p: Params, o: Renderers, ks: seq<Key>, order: seq<Capability>, xrs: seq<Xr>)
  {
    && |xrs| == |order| && Ascending(order)
    && (forall c :: c in order <==> On(p, c) && CapKey(c) in ks)
    && forall i :: 0 <= i < |xrs| ==> RenderedAs(p, o, ks, order[i], xrs[i])
  }

  ghost predicate RenderedAs(p: Params, o: Renderers, ks: seq<Key>, c: Capability, x: Xr)
  {
    o.renders(c).Some? && Describes(p, o, TagsFor(p, ks), o.renders(c).value, c, x)
  }

  lemma ManifestBuilt(p: Params, o: Renderers, ks: seq<Key>, parts: Parts, order: seq<Capability>, xrs: seq<Xr>)
    requires PartsOf(p, o, ks, parts) && Resources(p, o, parts, parts.Keys, order, xrs)
    ensures Manifest(p, o, ks, order, xrs)
  {
    forall i | 0 <= i < |xrs| ensures RenderedAs(p, o, ks, order[i], xrs[i]) {
      assert DescribedAt(p, o, parts, order[i], xrs[i]);
    }
  }

  /** A capability of the request that has a fragment can be turned into a resource. */
  ghost predicate Rendered(p: Params, o: Renderers, c: Capability)
  {
    o.validates(c) && o.renders(c).Some? && Supported(ProviderOf(p, c))
  }

  ghost predicate Selected(p: Params, ks: seq<Key>, c: Capability)
  {
    On(p, c) && CapKey(c) in ks
  }

  /** The fragments and the builder, without the checks before them. */
  method Assemble(p: Params, ks: seq<Key>, o: Renderers) returns (r: Option<seq<Xr>>, ghost order: seq<Capability>)
    ensures r.Some? <==> (exists c :: Selected(p, ks, c)) && forall c :: Selected(p, ks, c) ==> Rendered(p, o, c)
    ensures r.Some? ==> Manifest(p, o, ks, order, r.value)
  {
    var parts := CollectParts(p, o, ks);
    UsableExact(p, o, ks);
    if parts.None? {
      return None, [];
    }
    BuildableExact(p, o, ks, parts.value);
    r, order := BuildXRs(p, o, parts.value);
    if r.None? {
      return None, [];
    }
    ManifestBuilt(p, o, ks, parts.value, order, r.value);
    SelectedListed(p, o, ks, order, r.value);
    if r.value == [] {
      r, order := None, [];
    }
  }

  lemma UsableExact(p: Params, o: Renderers, ks: seq<Key>)
    ensures (forall k :: k in ks ==> Usable(p, o, k))
       <==> (forall c :: Selected(p, ks, c) ==> o.validates(c) && o.renders(c).Some?)
  {
    if forall k :: k in ks ==> Usable(p, o, k) {
      forall c | Selected(p, ks, c) ensures o.validates(c) && o.renders(c).Some? {
        assert Usable(p, o, CapKey(c));
      }
    }
    if forall c :: Selected(p, ks, c) ==> o.validates(c) && o.renders(c).Some? {
      forall k | k in ks ensures Usable(p, o, k) {
        assert k.CapKey? && On(p, k.c) ==> Selected(p, ks, k.c);
      }
    }
  }

  lemma BuildableExact(p: Params, o: Renderers, ks: seq<Key>, parts: Parts)
    requires PartsOf(p, o, ks, parts)
    ensures (forall k :: k in parts ==> Buildable(p, k)) <==> forall c :: Selected(p, ks, c) ==> Supported(ProviderOf(p, c))
    ensures forall k :: k in parts ==> Proper(k)
  {
    if forall k :: k in parts ==> Buildable(p, k) {
      forall c | Selected(p, ks, c) ensures Supported(ProviderOf(p, c)) {
        assert Buildable(p, CapKey(c));
      }
    }
    if forall c :: Selected(p, ks, c) ==> Supported(ProviderOf(p, c)) {
      forall k | k in parts ensures Buildable(p, k) {
        assert k.CapKey? ==> Selected(p, ks, k.c);
      }
    }
  }

  lemma SelectedListed(p: Params, o: Renderers, ks: seq<Key>, order: seq<Capability>, xrs: seq<Xr>)
    requires Manifest(p, o, ks, order, xrs)
    ensures xrs != [] <==> exists c :: Selected(p, ks, c)
  {
    if xrs != [] {
      assert order[0] in order;
      assert Selected(p, ks, order[0]);
    }
    if c :| Selected(p, ks, c) {
      assert c in order;
    }
  }

  // ---------------------------------------------------------------------------------------
  // Rendering
  // ---------------------------------------------------------------------------------------

  type Templates = map<string, Template>

  /** The template a request names exists and admits it. Nothing is checked without templates, or without
      a name. */
  ghost predicate Admitted(p: Params, templates: Templates)
  {
    templates == map[] || p.catalogueItem == "" ||
    (p.catalogueItem in templates && Conforming(p, templates[p.catalogueItem]))
  }

  ghost predicate Conforming(p: Params, t: Template)
  {
    PermitsAll(t, p.dimensions) && Conforms(t, InfosOf(p.caps, ALL), p.defaultProvider)
  }

  /** The rules that span capabilities. */
  predicate Coherent(p: Params)
  {
    && !(On(p, Vm) && On(p, Kubernetes))
    && (On(p, BlockStorage) ==> On(p, Vm))
    && (p.dimensions.availability == "critical" ==> On(p, Observability))
  }

  /** The fields no request can do without, the catalogue item among them. */
  predicate Complete(p: Params)
  {
    && p.contractVersion != "" && p.requestName != "" && p.tenant != "" && p.owner != ""
    && p.dimensions.environment != "" && p.catalogueItem != "" && p.space != "" && p.primaryRegion != ""
    && p.dimensions.availability != "" && p.dataClassification != "" && p.ingressMode != "" && p.egressMode != ""
    && p.costCentre != ""
  }

  /** The rules about recovery, backups and the time to live. */
  predicate Recoverable(p: Params)
  {
    && (p.drRequired ==> p.secondaryRegion != "")
    && (p.dimensions.availability == "critical" ==> p.drRequired && p.backupRequired)
    && (p.dataClassification == "restricted" ==> p.backupRequired)
    && (p.ttl != "" ==> p.ttlIsDate)
  }

  method CountMissing(p: Params) returns (errors: nat)
    ensures errors == 0 <==> Complete(p)
  {
    errors := 0;
    if p.contractVersion == "" {
      errors := errors + 1;
    }
    if p.requestName == "" {
      errors := errors + 1;
    }
    if p.tenant == "" {
      errors := errors + 1;
    }
    if p.owner == "" {
      errors := errors + 1;
    }
    if p.dimensions.environment == "" {
      errors := errors + 1;
    }
    if p.catalogueItem == "" {
      errors := errors + 1;
    }
    if p.space == "" {
      errors := errors + 1;
    }
    if p.primaryRegion == "" {
      errors := errors + 1;
    }
    if p.dimensions.availability == "" {
      errors := errors + 1;
    }
    if p.dataClassification == "" {
      errors := errors + 1;
    }
    if p.ingressMode == "" {
      errors := errors + 1;
    }
    if p.egressMode == "" {
      errors := errors + 1;
    }
    if p.costCentre == "" {
      errors := errors + 1;
    }
  }

  /** `Validate`: how many global rules the request breaks. */
  method CountErrors(p: Params) returns (errors: nat)
    ensures errors == 0 <==> Complete(p) && Recoverable(p)
  {
    errors := CountMissing(p);
    if p.drRequired && p.secondaryRegion == "" {
      errors := errors + 1;
    }
    if p.dimensions.availability == "critical" && !p.drRequired {
      errors := errors + 1;
    }
    if p.dimensions.availability == "critical" && !p.backupRequired {
      errors := errors + 1;
    }
    if p.dataClassification == "restricted" && !p.backupRequired {
      errors := errors + 1;
    }
    if p.ttl != "" && !p.ttlIsDate {
      errors := errors + 1;
    }
  }

  /** The checks before any fragment is rendered. */
  ghost predicate Accepted(p: Params, templates: Templates)
  {
    Admitted(p, templates) && Complete(p) && Recoverable(p) && Coherent(p)
  }

  /** Everything that can make rendering fail, in no particular order. */
  ghost predicate Renderable(p: Params, templates: Templates, ks: seq<Key>, o: Renderers)
  {
    Accepted(p, templates) && (exists c :: Selected(p, ks, c)) && forall c :: Selected(p, ks, c) ==> Rendered(p, o, c)
  }

  method CheckTemplate(p: Params, templates: Templates) returns (ok: bool)
    ensures ok <==> Admitted(p, templates)
  {
    if templates == map[] || p.catalogueItem == "" {
      return true;
    }
    if p.catalogueItem !in templates {
      return false;
    }
    var t := templates[p.catalogueItem];
    ok := ValidateParams(t, p.dimensions);
    if !ok {
      return false;
    }
    ok := ValidateCapabilities(t, InfosOf(p.caps, ALL), p.defaultProvider);
  }

  /** At least one capability is enabled. */
  predicate AnyOn(p: Params)
  {
    || On(p, Kubernetes) || On(p, Vm) || On(p, Database) || On(p, ObjectStorage) || On(p, BlockStorage)
    || On(p, FileStorage) || On(p, Vpc) || On(p, Messaging) || On(p, Cache) || On(p, Dns)
    || On(p, LoadBalancer) || On(p, Cdn) || On(p, Identity) || On(p, Secrets) || On(p, Observability)
  }

  lemma AnyOnExact(p: Params)
    ensures AnyOn(p) <==> exists c :: On(p, c)
  {
    if c :| On(p, c) {
      assert ALL[Rank(c)] == c;
    }
  }

  /** The checks of a request: against its template, its own fields, and across capabilities. */
  method CheckRequest(p: Params, templates: Templates) returns (ok: bool)
    ensures ok <==> Accepted(p, templates) && exists c :: On(p, c)
  {
    AnyOnExact(p);
    ok := CheckTemplate(p, templates);
    if !ok {
      return false;
    }
    var errors := CountErrors(p);
    if errors > 0 || !AnyOn(p) {
      return false;
    }
    if (On(p, Vm) && On(p, Kubernetes)) || (On(p, BlockStorage) && !On(p, Vm))
       || (p.dimensions.availability == "critical" && !On(p, Observability)) {
      return false;
    }
  }

  /** `Engine.Render`, up to the encoding of the resources. */
  method Render(p: Params, templates: Templates, ks: seq<Key>, o: Renderers) returns (r: Option<seq<Xr>>, ghost order: seq<Capability>)
    ensures r.Some? <==> Renderable(p, templates, ks, o)
    ensures r.Some? ==> Manifest(p, o, ks, order, r.value)
  {
    var ok := CheckRequest(p, templates);
    if !ok {
      assert (exists c :: Selected(p, ks, c)) ==> exists c :: On(p, c);
      return None, [];
    }
    r, order := Assemble(p, ks, o);
  }

  /** `RenderManifests`: with every fragment in place there is a resource for every enabled capability. */
  method RenderManifests(p: Params, templates: Templates, o: Renderers) returns (r: Option<seq<Xr>>, ghost order: seq<Capability>)
    ensures r.Some? <==> Renderable(p, templates, ALL_FRAGMENTS, o)
    ensures r.Some? ==> Manifest(p, o, ALL_FRAGMENTS, order, r.value) && forall c :: c in order <==> On(p, c)
  {
    r, order := Render(p, templates, ALL_FRAGMENTS, o);
    forall c ensures CapKey(c) in ALL_FRAGMENTS {
      EveryCapabilityHasFragment(c);
    }
  }

  // ---------------------------------------------------------------------------------------
  // What a manifest guarantees
  // ---------------------------------------------------------------------------------------

  lemma SuffixDiffers(prefix: string, a: string, b: string)
    requires a != b
    ensures prefix + "-" + a != prefix + "-" + b
  {
    assert (prefix + "-" + a)[|prefix| + 1..] == a && (prefix + "-" + b)[|prefix| + 1..] == b;
  }

  /** No two resources share a kind or a name. */
  lemma ResourcesDiffer(p: Params, o: Renderers, ks: seq<Key>, order: seq<Capability>, xrs: seq<Xr>, i: nat, j: nat)
    requires Manifest(p, o, ks, order, xrs) && i < j < |xrs|
    ensures xrs[i].kind != xrs[j].kind && xrs[i].name != xrs[j].name
  {
    LessIrreflexive(Name(order[i]));
    assert order[i] != order[j];
    KindsDiffer(order[i], order[j]);
    NamesDiffer(order[i], order[j]);
    SuffixDiffers(p.requestName, Name(order[i]), Name(order[j]));
  }

  /** The manifest is determined by the request: no trace is left of the order in which maps were walked
      or fragments were listed. */
  lemma ManifestUnique(p: Params, o: Renderers, ks: seq<Key>, ks': seq<Key>,
                       order: seq<Capability>, xrs: seq<Xr>, order': seq<Capability>, xrs': seq<Xr>)
    requires Manifest(p, o, ks, order, xrs) && Manifest(p, o, ks', order', xrs')
    requires forall k :: k in ks <==> k in ks'
    ensures order == order' && xrs == xrs'
  {
    AscendingUnique(order, order');
    forall i | 0 <= i < |xrs| ensures xrs[i] == xrs'[i] {
      assert RenderedAs(p, o, ks, order[i], xrs[i]) && RenderedAs(p, o, ks', order[i], xrs'[i]);
    }
  }

  /** Every resource uses a supported provider that the template the request names allows: the check and the
      builder resolve providers alike. */
  lemma ProvidersAllowed(p: Params, templates: Templates, ks: seq<Key>, o: Renderers, order: seq<Capability>, xrs: seq<Xr>, i: nat)
    requires Renderable(p, templates, ks, o) && Manifest(p, o, ks, order, xrs) && templates != map[] && i < |xrs|
    ensures p.catalogueItem in templates && Name(order[i]) !in templates[p.catalogueItem].forbidden
    ensures exists provider ::
      && Supported(provider) && Permits(templates[p.catalogueItem].providers, provider)
      && xrs[i].composition == Lower(Name(order[i])) + "-" + provider
  {
    assert order[i] in order;
    assert RenderedAs(p, o, ks, order[i], xrs[i]);
    assert ALL[Rank(order[i])] == order[i];
    ConformingCapability(templates[p.catalogueItem], p.caps, ALL, p.defaultProvider, order[i]);
  }

  /** Every resource carries every tag pair, with the request's own tags winning. */
  lemma TagsPresent(p: Params, o: Renderers, ks: seq<Key>, order: seq<Capability>, xrs: seq<Xr>, i: nat)
    requires Manifest(p, o, ks, order, xrs) && TagsKey in ks && i < |xrs|
    ensures xrs[i].tags.Some?
    ensures forall k, v :: Tagged(p, k, v) ==> k in xrs[i].tags.value && xrs[i].tags.value[k] == v
  {
    TagsNeverEmpty(p);
    assert RenderedAs(p, o, ks, order[i], xrs[i]);
    forall k, v | Tagged(p, k, v) ensures k in xrs[i].tags.value && xrs[i].tags.value[k] == v {
      TagsByField(p, k, v);
    }
  }
}
