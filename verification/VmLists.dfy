/** The two list fields of a VM that is fetched by three queries. */
module VmLists {

  type Item = nat

  datatype Kind = Disks | Vifs

  /** A list field of a VM: NULL, the EINA_TRUE placeholder, or a list with something in it. */
  datatype Slot = Null | Mark | List(items: seq<Item>)

  /** What a query result is stored as when it arrives; an empty result is a NULL list. */
  function Store(result: seq<Item>): Slot {
    if result == [] then Mark else List(result)
  }

  /** What the consumer of a VM should see for a query result. */
  function Exact(result: seq<Item>): Slot {
    if result == [] then Null else List(result)
  }

  function Unmark(s: Slot): Slot {
    if s == Mark then Null else s
  }

  /** One VM while it is put together: its two fields, each delivery of it, and the results that
      have come in so far, in order. */
  datatype Assembly = Assembly(disks: Slot, vifs: Slot, delivered: seq<(Slot, Slot)>, results: seq<(Kind, seq<Item>)>)
  {
    /** The other field, which decides whether a list that arrives completes the VM. */
    function Other(kind: Kind): Slot {
      if kind == Disks then vifs else disks
    }
  }

  function Begun(): Assembly {
    Assembly(Null, Null, [], [])
  }

  /** zrpcdb_vm_disks and zrpcdb_vm_vifs: store the own list; if the other one is there,
      clear the other's placeholder and deliver. */
  function Arrive(a: Assembly, kind: Kind, result: seq<Item>): Assembly {
    var results := a.results + [(kind, result)];
    match kind
    case Disks =>
      if a.vifs == Null then a.(disks := Store(result), results := results)
      else Assembly(Store(result), Unmark(a.vifs), a.delivered + [(Store(result), Unmark(a.vifs))], results)
    case Vifs =>
      if a.disks == Null then a.(vifs := Store(result), results := results)
      else Assembly(Unmark(a.disks), Store(result), a.delivered + [(Unmark(a.disks), Store(result))], results)
  }

  /** A VM is complete once both results are in, in either order, and never more than once each. */
  ghost predicate Assembled(a: Assembly) {
    match |a.results|
    case 0 => a == Begun()
    case 1 =>
      var (kind, r) := a.results[0];
      a == (if kind == Disks then Assembly(Store(r), Null, [], a.results) else Assembly(Null, Store(r), [], a.results))
    case 2 =>
      var ((k1, r1), (k2, r2)) := (a.results[0], a.results[1]);
      && k1 != k2
      && a.delivered == if k1 == Disks then [(Exact(r1), Store(r2))] else [(Store(r2), Exact(r1))]
    case _ => false
  }

  lemma ArriveKeepsAssembled(a: Assembly, kind: Kind, result: seq<Item>)
    requires Assembled(a) && forall i :: 0 <= i < |a.results| ==> a.results[i].0 != kind
    ensures Assembled(Arrive(a, kind, result))
  {
  }

  lemma ArriveRecords(a: Assembly, kind: Kind, result: seq<Item>)
    ensures Arrive(a, kind, result).results == a.results + [(kind, result)]
  {
  }
}
