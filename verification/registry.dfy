/** The endpoint registry the aggregator loads at start-up: the `urls` object
    of `config.json`, keyed by the name of the deploying module
    (`"faas.gcp"`, ...), each section mapping a region to its probe URL. */
module Registry {

  /** The four providers the fan-out knows about. */
  datatype Provider = Gcp | Aws | Azure | AliCloud

  /** The providers in the order the fan-out visits them. */
  const Providers: seq<Provider> := [Gcp, Aws, Azure, AliCloud]

  /** Position of a provider in `Providers`. */
  function Rank(p: Provider): (r: nat)
    ensures r < |Providers| && Providers[r] == p
  {
    match p
    case Gcp => 0
    case Aws => 1
    case Azure => 2
    case AliCloud => 3
  }

  /** Registry key of a provider's section: the deploying module's name. */
  function Namespace(p: Provider): string
  {
    match p
    case Gcp => "faas.gcp"
    case Aws => "faas.aws"
    case Azure => "faas.azure"
    case AliCloud => "faas.alicloud"
  }

  lemma NamespaceInjective(p: Provider, q: Provider)
    ensures Namespace(p) == Namespace(q) <==> p == q
  {
  }

  predicate DistinctKeys(entries: seq<(string, string)>)
  {
    forall i, j :: 0 <= i < j < |entries| ==> entries[i].0 != entries[j].0
  }

  /** A JSON object as Python loads it: a dict that iterates its entries in
      document order and holds each key once. */
  type Dict = entries: seq<(string, string)> | DistinctKeys(entries)

  /** The registry: section name to section. */
  type Urls = map<string, Dict>

  /** The mapping view of a dict: every entry is a binding, and nothing else;
      because keys are distinct the map has one key per entry. */
  function AsMap(d: Dict): (m: map<string, string>)
    ensures forall i :: 0 <= i < |d| ==> d[i].0 in m && m[d[i].0] == d[i].1
    ensures forall k :: k in m ==> exists i :: 0 <= i < |d| && d[i].0 == k
    ensures |m| == |d|
  {
    if d == [] then map[]
    else
      var rest: Dict := d[1..];
      var m := AsMap(rest);
      assert forall i :: 0 <= i < |rest| ==> rest[i] == d[i + 1];
      m[d[0].0 := d[0].1]
  }

  /** The first key of a dict is not bound again by the rest of it. */
  lemma HeadKeyNotInRest(d: Dict)
    requires d != []
    ensures d[0].0 !in AsMap(d[1..])
  {
    var rest: Dict := d[1..];
    forall i | 0 <= i < |rest|
      ensures rest[i].0 != d[0].0
    {
      assert rest[i] == d[i + 1];
    }
  }

  /** Number of entries of `d` whose key is `k`. */
  function KeyCount(d: seq<(string, string)>, k: string): nat
  {
    if d == [] then 0
    else (if d[0].0 == k then 1 else 0) + KeyCount(d[1..], k)
  }

  /** A dict holds a key once if it is bound, and not at all otherwise. */
  lemma {:induction false} KeyCountIsMembership(d: Dict, k: string)
    ensures KeyCount(d, k) == if k in AsMap(d) then 1 else 0
  {
    if d != [] {
      var rest: Dict := d[1..];
      KeyCountIsMembership(rest, k);
      if d[0].0 == k {
        HeadKeyNotInRest(d);
      }
    }
  }
}
