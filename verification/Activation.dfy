/** Service activation records (src/activate.rs). */
module Activation {
  import opened Rpc

  datatype ServiceState = Stopped | Starting | Running(worker: ClientId)

  datatype ServiceEntry = ServiceEntry(
    state: ServiceState,
    service: Name,
    pending: seq<Request>,
    owner: Option<ClientId>)

  function Fresh(service: Name): ServiceEntry {
    ServiceEntry(Stopped, service, [], None)
  }

  /** One record of an activation file. */
  datatype Item = Item(kind: string, obj: Name, service: Name)

  const REGISTER_SERVICE := "RegisterService"

  /** The services after loading the records into an existing table, in order. */
  function Loaded(items: seq<Item>, services: map<Name, ServiceEntry>): map<Name, ServiceEntry> {
    if items == [] then services
    else
      var before, item := Loaded(items[..|items| - 1], services), items[|items| - 1];
      if item.kind != REGISTER_SERVICE then before else before[item.obj := Fresh(item.service)]
  }

  /** Record `i` is the last one that registers its object. */
  predicate IsLast(items: seq<Item>, i: nat) {
    && i < |items| && items[i].kind == REGISTER_SERVICE
    && forall j | i < j < |items| && items[j].kind == REGISTER_SERVICE :: items[j].obj != items[i].obj
  }

  /** The initial table: the objects of the accepted records, each stopped and idle under its last service name. */
  lemma {:induction false} LoadedExactly(items: seq<Item>)
    ensures forall i: nat | IsLast(items, i) ::
              items[i].obj in Loaded(items, map[]) && Loaded(items, map[])[items[i].obj] == Fresh(items[i].service)
    ensures forall n | n in Loaded(items, map[]) :: exists i: nat :: IsLast(items, i) && items[i].obj == n
  {
    if items != [] {
      var k := |items| - 1;
      var front, table := items[..k], Loaded(items, map[]);
      LoadedExactly(front);
      forall i: nat | IsLast(items, i)
        ensures items[i].obj in table && table[items[i].obj] == Fresh(items[i].service)
      {
        if i < k { assert IsLast(front, i); }
      }
      forall n | n in table ensures exists i: nat :: IsLast(items, i) && items[i].obj == n {
        if items[k].kind == REGISTER_SERVICE && items[k].obj == n {
          assert IsLast(items, k);
        } else {
          assert n in Loaded(front, map[]);
          var i: nat :| IsLast(front, i) && front[i].obj == n;
          assert forall j | i < j < k :: items[j] == front[j];
          assert IsLast(items, i);
        }
      }
    }
  }
}
