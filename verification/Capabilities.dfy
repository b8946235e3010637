/** The infrastructure capabilities a request can enable, and the names derived from them. */
module Capabilities {
  import opened Text

  datatype Capability =
    | BlockStorage | Cache | Cdn | Database | Dns | FileStorage | Identity | Kubernetes | LoadBalancer
    | Messaging | ObjectStorage | Observability | Secrets | Vm | Vpc

  const ALL: seq<Capability> := [
    BlockStorage, Cache, Cdn, Database, Dns, FileStorage, Identity, Kubernetes, LoadBalancer,
    Messaging, ObjectStorage, Observability, Secrets, Vm, Vpc]

  function Name(c: Capability): string
  {
    match c
    case BlockStorage => "blockStorage"
    case Cache => "cache"
    case Cdn => "cdn"
    case Database => "database"
    case Dns => "dns"
    case FileStorage => "fileStorage"
    case Identity => "identity"
    case Kubernetes => "kubernetes"
    case LoadBalancer => "loadBalancer"
    case Messaging => "messaging"
    case ObjectStorage => "objectStorage"
    case Observability => "observability"
    case Secrets => "secrets"
    case Vm => "vm"
    case Vpc => "vpc"
  }

  /** `resolveXRDKind`. */
  function Kind(c: Capability): string
  {
    match c
    case BlockStorage => "XBlockStorage"
    case Cache => "XCache"
    case Cdn => "XCDN"
    case Database => "XDatabase"
    case Dns => "XDNSZone"
    case FileStorage => "XFileStorage"
    case Identity => "XIdentity"
    case Kubernetes => "XKubernetesCluster"
    case LoadBalancer => "XLoadBalancer"
    case Messaging => "XMessaging"
    case ObjectStorage => "XObjectStore"
    case Observability => "XObservability"
    case Secrets => "XSecretsStore"
    case Vm => "XVirtualMachine"
    case Vpc => "XVPCNetwork"
  }

  /** Names and kinds side by side, in ascending order of the names. */
  const KIND_TABLE: seq<(string, string)> := [
    ("blockStorage", "XBlockStorage"), ("cache", "XCache"), ("cdn", "XCDN"), ("database", "XDatabase"),
    ("dns", "XDNSZone"), ("fileStorage", "XFileStorage"), ("identity", "XIdentity"),
    ("kubernetes", "XKubernetesCluster"), ("loadBalancer", "XLoadBalancer"), ("messaging", "XMessaging"),
    ("objectStorage", "XObjectStore"), ("observability", "XObservability"), ("secrets", "XSecretsStore"),
    ("vm", "XVirtualMachine"), ("vpc", "XVPCNetwork")]

  lemma KindsByTable(c: Capability)
    ensures |KIND_TABLE| == |ALL| && KIND_TABLE[Rank(c)] == (Name(c), Kind(c))
  {
  }

  function Rank(c: Capability): (i: nat)
    ensures i < |ALL| && ALL[i] == c
  {
    match c
    case BlockStorage => 0
    case Cache => 1
    case Cdn => 2
    case Database => 3
    case Dns => 4
    case FileStorage => 5
    case Identity => 6
    case Kubernetes => 7
    case LoadBalancer => 8
    case Messaging => 9
    case ObjectStorage => 10
    case Observability => 11
    case Secrets => 12
    case Vm => 13
    case Vpc => 14
  }

  /** Different capabilities have different names. */
  lemma NamesDiffer(a: Capability, b: Capability)
    requires a != b
    ensures Name(a) != Name(b)
  {
  }

  /** Different capabilities have different kinds. */
  lemma KindsDiffer(a: Capability, b: Capability)
    requires a != b
    ensures Kind(a) != Kind(b)
  {
  }

  /** Capabilities in strictly ascending order of their names. */
  ghost predicate Ascending(cs: seq<Capability>)
  {
    forall i, j :: 0 <= i < j < |cs| ==> Less(Name(cs[i]), Name(cs[j]))
  }

  /** A set of capabilities has one ascending listing. */
  lemma {:induction false} AscendingUnique(x: seq<Capability>, y: seq<Capability>)
    requires Ascending(x) && Ascending(y) && forall c :: c in x <==> c in y
    ensures x == y
  {
    if x != [] {
      assert x[0] in x;
    }
    if y != [] {
      assert y[0] in y;
      HeadFirst(x, y);
      HeadFirst(y, x);
      if x[0] != y[0] {
        LessAsymmetric(Name(x[0]), Name(y[0]));
      }
      TailOf(x);
      TailOf(y);
      AscendingUnique(x[1..], y[1..]);
    }
  }

  lemma HeadFirst(x: seq<Capability>, y: seq<Capability>)
    requires Ascending(y) && x != [] && y != [] && x[0] in y
    ensures x[0] == y[0] || Less(Name(y[0]), Name(x[0]))
  {
  }

  lemma TailOf(x: seq<Capability>)
    requires Ascending(x) && x != []
    ensures forall c :: c in x[1..] <==> c in x && c != x[0]
  {
    LessIrreflexive(Name(x[0]));
    assert x == [x[0]] + x[1..];
    assert forall i :: 0 <= i < |x[1..]| ==> x[1..][i] == x[i + 1];
  }
}
