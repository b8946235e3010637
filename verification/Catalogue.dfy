/** Requests and the catalogue templates they are checked against. */
module Catalogue {
  import opened Capabilities

  /** A capability as a request states it. */
  datatype CapabilityInfo = CapabilityInfo(enabled: bool, provider: string)

  datatype Dimensions = Dimensions(environment: string, workloadProfile: string, availability: string, residency: string)

  datatype Template = Template(
    required: seq<string>,
    forbidden: seq<string>,
    environments: seq<string>,
    workloadProfiles: seq<string>,
    availabilities: seq<string>,
    residencies: seq<string>,
    providers: seq<string>)

  /** An empty list allows everything. */
  predicate Permits(allowed: seq<string>, item: string)
  {
    allowed == [] || item in allowed
  }

  predicate PermitsAll(t: Template, d: Dimensions)
  {
    && Permits(t.environments, d.environment)
    && Permits(t.workloadProfiles, d.workloadProfile)
    && Permits(t.availabilities, d.availability)
    && Permits(t.residencies, d.residency)
  }

  /** `ValidateParams`. */
  method ValidateParams(t: Template, d: Dimensions) returns (ok: bool)
    ensures ok <==> PermitsAll(t, d)
  {
    if |t.environments| > 0 && d.environment !in t.environments {
      return false;
    }
    if |t.workloadProfiles| > 0 && d.workloadProfile !in t.workloadProfiles {
      return false;
    }
    if |t.availabilities| > 0 && d.availability !in t.availabilities {
      return false;
    }
    if |t.residencies| > 0 && d.residency !in t.residencies {
      return false;
    }
    ok := true;
  }

  const MODULE_DEFAULT_PROVIDER := "aws"

  /** `ResolveProvider`: the capability's own provider, else the request's, else the module's. */
  function ResolveProvider(c: CapabilityInfo, requestDefault: string): string
  {
    if c.provider != "" then c.provider
    else if requestDefault != "" then requestDefault
    else MODULE_DEFAULT_PROVIDER
  }

  type Infos = map<string, CapabilityInfo>

  predicate Enabled(infos: Infos, name: string)
  {
    name in infos && infos[name].enabled
  }

  /** What a template demands of the capabilities of a request. */
  ghost predicate Conforms(t: Template, infos: Infos, requestDefault: string)
  {
    && (forall i :: 0 <= i < |t.required| ==> Enabled(infos, t.required[i]))
    && (forall i :: 0 <= i < |t.forbidden| ==> !Enabled(infos, t.forbidden[i]))
    && (forall name :: Enabled(infos, name) ==> Permits(t.providers, ResolveProvider(infos[name], requestDefault)))
  }

  /** `ValidateCapabilities`, with its own copy of the provider resolution. The capabilities are visited
      in any order. */
  method ValidateCapabilities(t: Template, infos: Infos, requestDefault: string) returns (ok: bool)
    ensures ok <==> Conforms(t, infos, requestDefault)
  {
    for i := 0 to |t.required|
      invariant forall j :: 0 <= j < i ==> Enabled(infos, t.required[j])
    {
      if !Enabled(infos, t.required[i]) {
        return false;
      }
    }
    for i := 0 to |t.forbidden|
      invariant forall j :: 0 <= j < i ==> !Enabled(infos, t.forbidden[j])
    {
      if Enabled(infos, t.forbidden[i]) {
        return false;
      }
    }
    var rest := infos.Keys;
    while rest != {}
      invariant rest <= infos.Keys
      invariant forall name :: Enabled(infos, name) && name !in rest ==>
        Permits(t.providers, ResolveProvider(infos[name], requestDefault))
    {
      var name :| name in rest;
      rest := rest - {name};
      var info := infos[name];
      if info.enabled {
        var provider := info.provider;
        if provider == "" {
          provider := requestDefault;
        }
        if provider == "" {
          provider := "aws";
        }
        if t.providers != [] && provider !in t.providers {
          assert Enabled(infos, name);
          return false;
        }
      }
    }
    ok := true;
  }

  /** The capabilities of a request, keyed by name. */
  function InfosOf(caps: Capability -> CapabilityInfo, cs: seq<Capability>): Infos
  {
    if cs == [] then map[] else InfosOf(caps, cs[1..])[Name(cs[0]) := caps(cs[0])]
  }

  lemma {:induction false} InfosAt(caps: Capability -> CapabilityInfo, cs: seq<Capability>)
    ensures forall c :: c in cs ==> Name(c) in InfosOf(caps, cs) && InfosOf(caps, cs)[Name(c)] == caps(c)
    ensures forall name :: name in InfosOf(caps, cs) ==> exists c :: c in cs && Name(c) == name
  {
    if cs != [] {
      InfosAt(caps, cs[1..]);
      forall c | c in cs ensures Name(c) in InfosOf(caps, cs) && InfosOf(caps, cs)[Name(c)] == caps(c) {
        if c != cs[0] {
          NamesDiffer(c, cs[0]);
        }
      }
      forall name | name in InfosOf(caps, cs) ensures exists c :: c in cs && Name(c) == name {
        if name == Name(cs[0]) {
          assert cs[0] in cs;
        } else {
          var c :| c in cs[1..] && Name(c) == name;
          assert c in cs;
        }
      }
    }
  }

  /** What the catalogue check of a request establishes about each of its capabilities: the provider it
      resolves to is allowed, and its name is not forbidden. */
  lemma ConformingCapability(t: Template, caps: Capability -> CapabilityInfo, cs: seq<Capability>, requestDefault: string, c: Capability)
    requires Conforms(t, InfosOf(caps, cs), requestDefault) && c in cs && caps(c).enabled
    ensures Permits(t.providers, ResolveProvider(caps(c), requestDefault))
    ensures Name(c) !in t.forbidden
  {
    InfosAt(caps, cs);
    assert Enabled(InfosOf(caps, cs), Name(c));
  }

  /** A required name is that of an enabled capability. */
  lemma RequiredIsEnabled(t: Template, caps: Capability -> CapabilityInfo, cs: seq<Capability>, requestDefault: string, i: nat)
    returns (c: Capability)
    requires Conforms(t, InfosOf(caps, cs), requestDefault) && i < |t.required|
    ensures c in cs && Name(c) == t.required[i] && caps(c).enabled
  {
    InfosAt(caps, cs);
    assert Enabled(InfosOf(caps, cs), t.required[i]);
    c :| c in cs && Name(c) == t.required[i];
  }
}
