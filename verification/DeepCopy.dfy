/** The generated deep-copy functions on the heap (zz_generated.deepcopy.go). A Go struct is a
    value that may hold pointers; a pointer is an object or null. */
module DeepCopies {
  import opened Options
  import opened Resources

  // ---- Structs and pointers ---------------------------------------------------------------

  function Pointee(r: RefObject?): set<object> { if r == null then {} else {r} }

  function Value(r: RefObject?): Option<ResourceRef>
    reads r
  {
    if r == null then None else Some(r.it)
  }

  /** What a *ResourceRef points to. */
  class RefObject {
    var it: ResourceRef

    constructor (it: ResourceRef)
      ensures this.it == it
    {
      this.it := it;
    }

    /** nil stays nil; anything else gets a new object. */
    static method DeepCopy(from: RefObject?) returns (out: RefObject?)
      ensures Value(out) == Value(from) && fresh(Pointee(out))
    {
      if from == null { return null; }
      out := new RefObject(from.it);
    }
  }

  datatype SpecStruct = SpecStruct(
    serviceRef: RefObject?, authTokenRef: RefObject?, licenseRef: RefObject?, updateServiceIP: bool)
  {
    /** The objects behind the pointers. */
    function Refs(): set<object> {
      Pointee(serviceRef) + Pointee(authTokenRef) + Pointee(licenseRef)
    }

    function Contents(): TunnelSpec
      reads Refs()
    {
      TunnelSpec(Value(serviceRef), Value(authTokenRef), Value(licenseRef), updateServiceIP)
    }

    method DeepCopy() returns (out: SpecStruct)
      ensures out.Contents() == Contents() && fresh(out.Refs())
    {
      out := this;
      var service := RefObject.DeepCopy(serviceRef);
      out := out.(serviceRef := service);
      var auth := RefObject.DeepCopy(authTokenRef);
      out := out.(authTokenRef := auth);
      var license := RefObject.DeepCopy(licenseRef);
      out := out.(licenseRef := license);
    }
  }

  datatype StatusStruct = StatusStruct(
    generated: bool, hostStatus: HostStatus, hostIP: string, hostID: string,
    authTokenRef: RefObject?, clientDeploymentRef: RefObject?)
  {
    function Refs(): set<object> { Pointee(authTokenRef) + Pointee(clientDeploymentRef) }

    function Contents(): TunnelStatus
      reads Refs()
    {
      TunnelStatus(generated, hostStatus, hostIP, hostID, Value(authTokenRef), Value(clientDeploymentRef))
    }

    method DeepCopy() returns (out: StatusStruct)
      ensures out.Contents() == Contents() && fresh(out.Refs())
    {
      out := this;
      var auth := RefObject.DeepCopy(authTokenRef);
      out := out.(authTokenRef := auth);
      var client := RefObject.DeepCopy(clientDeploymentRef);
      out := out.(clientDeploymentRef := client);
    }
  }

  /** The array behind a slice of owner references. */
  class OwnersObject {
    var it: seq<OwnerReference>

    constructor (it: seq<OwnerReference>)
      ensures this.it == it
    {
      this.it := it;
    }
  }

  /** The metadata; its DeepCopy stands for the library's ObjectMeta.DeepCopyInto. */
  datatype MetaStruct = MetaStruct(key: Key, uid: nat, rv: nat, owners: OwnersObject?)
  {
    function Refs(): set<object> { if owners == null then {} else {owners} }

    function Owners(): seq<OwnerReference>
      reads Refs()
    {
      if owners == null then [] else owners.it
    }

    method DeepCopy() returns (out: MetaStruct)
      ensures out == this.(owners := out.owners) && (out.owners == null <==> owners == null)
      ensures out.Owners() == Owners() && fresh(out.Refs())
    {
      out := this;
      if owners != null {
        var copy := new OwnersObject(owners.it);
        out := out.(owners := copy);
      }
    }
  }

  datatype TunnelStruct = TunnelStruct(meta: MetaStruct, spec: SpecStruct, status: StatusStruct)
  {
    function Refs(): set<object> { meta.Refs() + spec.Refs() + status.Refs() }

    function Contents(): Tunnel
      reads Refs()
    {
      Tunnel(meta.key, meta.uid, meta.rv, meta.Owners(), spec.Contents(), status.Contents())
    }

    /** The DeepCopyInto of a Tunnel: what it stores behind `out`. */
    method DeepCopy() returns (out: TunnelStruct)
      ensures out.Contents() == Contents() && fresh(out.Refs())
    {
      out := this;
      var newMeta := meta.DeepCopy();
      out := out.(meta := newMeta);
      var newSpec := spec.DeepCopy();
      out := out.(spec := newSpec);
      var newStatus := status.DeepCopy();
      out := out.(status := newStatus);
    }
  }

  /** What a *Tunnel points to. */
  class TunnelObject {
    var it: TunnelStruct

    constructor (it: TunnelStruct)
      ensures this.it == it
    {
      this.it := it;
    }

    /** Everything that a holder of this pointer can write. */
    function Reach(): set<object>
      reads this
    {
      {this} + it.Refs()
    }

    method DeepCopyInto(out: TunnelObject)
      modifies out
      ensures out.it.Contents() == old(it.Contents()) && fresh(out.it.Refs())
    {
      var copy := it.DeepCopy();
      out.it := copy;
    }

    static method DeepCopy(from: TunnelObject?) returns (out: TunnelObject?)
      ensures out == null <==> from == null
      ensures from != null ==> out.it.Contents() == from.it.Contents() && fresh(out.Reach())
    {
      if from == null { return null; }
      out := new TunnelObject(from.it);
      from.DeepCopyInto(out);
    }
  }

  // ---- Writes through a pointer ------------------------------------------------------------

  datatype Slot = ServiceRef | AuthTokenRef | LicenseRef | StatusAuthTokenRef | ClientDeploymentRef

  /** Assignments that a holder of a *Tunnel can make: to plain fields, to a pointer, or to
      the ref or the slice element that is there. */
  datatype Write =
    | SetMeta(key: Key, rv: nat)
    | SetOwners(owners: seq<OwnerReference>)
    | EditOwner(index: nat, owner: OwnerReference)
    | SetHost(hostStatus: HostStatus, hostID: string, hostIP: string)
    | SetFlags(updateServiceIP: bool, generated: bool)
    | SetRef(slot: Slot, ref: Option<ResourceRef>)
    | EditRef(slot: Slot, edited: ResourceRef)

  function RefIn(t: TunnelStruct, slot: Slot): RefObject? {
    match slot
    case ServiceRef => t.spec.serviceRef
    case AuthTokenRef => t.spec.authTokenRef
    case LicenseRef => t.spec.licenseRef
    case StatusAuthTokenRef => t.status.authTokenRef
    case ClientDeploymentRef => t.status.clientDeploymentRef
  }

  function WithRef(t: TunnelStruct, slot: Slot, r: RefObject?): (u: TunnelStruct)
    ensures RefIn(u, slot) == r && u.Refs() <= t.Refs() + Pointee(r)
  {
    match slot
    case ServiceRef => t.(spec := t.spec.(serviceRef := r))
    case AuthTokenRef => t.(spec := t.spec.(authTokenRef := r))
    case LicenseRef => t.(spec := t.spec.(licenseRef := r))
    case StatusAuthTokenRef => t.(status := t.status.(authTokenRef := r))
    case ClientDeploymentRef => t.(status := t.status.(clientDeploymentRef := r))
  }

  /** `made` are the objects that the write allocates. */
  method WriteOne(t: TunnelObject, w: Write) returns (ghost made: set<object>)
    modifies t.Reach()
    ensures fresh(made) && t.it.Refs() <= old(t.it.Refs()) + made
  {
    made := {};
    match w
    case SetMeta(key, rv) => t.it := t.it.(meta := t.it.meta.(key := key, rv := rv));
    case SetOwners(owners) =>
      var slice := new OwnersObject(owners);
      made := {slice};
      t.it := t.it.(meta := t.it.meta.(owners := slice));
    case EditOwner(index, owner) =>
      var owners := t.it.meta.owners;
      if owners != null && index < |owners.it| { owners.it := owners.it[index := owner]; }
    case SetHost(hostStatus, id, ip) =>
      t.it := t.it.(status := t.it.status.(hostStatus := hostStatus, hostID := id, hostIP := ip));
    case SetFlags(update, generated) =>
      t.it := t.it.(spec := t.it.spec.(updateServiceIP := update), status := t.it.status.(generated := generated));
    case SetRef(slot, None) => t.it := WithRef(t.it, slot, null);
    case SetRef(slot, Some(ref)) =>
      var r := new RefObject(ref);
      made := {r};
      t.it := WithRef(t.it, slot, r);
    case EditRef(slot, edited) =>
      var r := RefIn(t.it, slot);
      if r != null { r.it := edited; }
  }

  method WriteAll(t: TunnelObject, writes: seq<Write>) returns (ghost made: set<object>)
    modifies t.Reach()
    ensures fresh(made) && t.it.Refs() <= old(t.it.Refs()) + made
  {
    hide TunnelStruct.Refs;
    made := {};
    for i := 0 to |writes|
      invariant fresh(made) && t.it.Refs() <= old(t.it.Refs()) + made
    {
      ghost var more := WriteOne(t, writes[i]);
      made := made + more;
    }
  }

  lemma GatherOne(t: TunnelStruct) returns (refs: set<object>)
    ensures refs == t.Refs()
  {
    refs := t.Refs();
  }

  /** No sequence of writes through a deep copy reaches the original. */
  method CopyThenWrite(original: TunnelObject, writes: seq<Write>) returns (copy: TunnelObject)
    ensures original.it == old(original.it) && original.it.Contents() == old(original.it.Contents())
    ensures fresh(copy.Reach())
  {
    hide TunnelStruct.Contents, TunnelStruct.Refs;
    ghost var refs := GatherOne(original.it);
    copy := TunnelObject.DeepCopy(original);
    ghost var made := WriteAll(copy, writes);
  }

  /** createClientDeployment assigns the reference before it copies: through the pointer that
      the lister returned, so the cached object itself changes. */
  method AssignThenCopy(cached: TunnelObject, ref: ResourceRef) returns (copy: TunnelObject)
    modifies cached
    ensures var was := old(cached.it.Contents());
            cached.it.Contents() == was.(status := was.status.(clientDeploymentRef := Some(ref)))
    ensures copy.it.Contents() == cached.it.Contents() && fresh(copy.Reach())
  {
    var r := new RefObject(ref);
    cached.it := cached.it.(status := cached.it.status.(clientDeploymentRef := r));
    copy := TunnelObject.DeepCopy(cached);
  }

  // ---- Lists --------------------------------------------------------------------------------

  /** All refs of a slice. */
  ghost function AllRefs(ts: seq<TunnelStruct>): (refs: set<object>)
    ensures forall t <- ts :: t.Refs() <= refs
  {
    set t, r | t in ts && r in t.Refs() :: r
  }

  predicate Separate(ts: seq<TunnelStruct>) {
    forall i, j :: 0 <= i < j < |ts| ==> ts[i].Refs() !! ts[j].Refs()
  }

  /** What a slice holds. */
  ghost function ContentsOf(ts: seq<TunnelStruct>): (values: seq<Tunnel>)
    reads AllRefs(ts)
    ensures |values| == |ts| && forall i :: 0 <= i < |ts| ==> values[i] == ts[i].Contents()
  {
    seq(|ts|, i requires 0 <= i < |ts| reads AllRefs(ts) => ts[i].Contents())
  }

  lemma OneMore(ts: seq<TunnelStruct>, t: TunnelStruct)
    requires Separate(ts) && t.Refs() !! AllRefs(ts)
    ensures Separate(ts + [t]) && AllRefs(ts + [t]) == AllRefs(ts) + t.Refs()
  {
    hide TunnelStruct.Refs;
    forall u | u in ts ensures u in ts + [t] {}
  }

  lemma OneMoreHeld(ts: seq<TunnelStruct>, t: TunnelStruct)
    ensures ContentsOf(ts + [t]) == ContentsOf(ts) + [t.Contents()]
  {
    hide TunnelStruct.Refs, TunnelStruct.Contents, AllRefs;
  }

  lemma NoneHeld()
    ensures AllRefs([]) == {} && Separate([]) && ContentsOf([]) == []
  {}

  lemma Gather(ts: seq<TunnelStruct>) returns (refs: set<object>)
    ensures refs == AllRefs(ts)
  {
    refs := AllRefs(ts);
  }

  /** The loop of the list's DeepCopyInto. */
  method CopyItems(source: array<TunnelStruct>) returns (items: array<TunnelStruct>)
    ensures fresh(items) && ContentsOf(items[..]) == old(ContentsOf(source[..]))
    ensures fresh(AllRefs(items[..])) && Separate(items[..])
  {
    hide TunnelStruct.Contents, TunnelStruct.Refs, AllRefs, Separate, ContentsOf;
    ghost var was := source[..];
    ghost var values := ContentsOf(was);
    ghost var shared := Gather(was);
    ghost var copies: seq<TunnelStruct> := [];
    ghost var made: set<object> := {};
    NoneHeld();
    items := new TunnelStruct[source.Length];
    for k := 0 to source.Length
      invariant fresh(items) && items.Length == source.Length && source[..] == was && items[..k] == copies
      invariant ContentsOf(was) == values && ContentsOf(copies) == values[..k]
      invariant AllRefs(copies) == made && fresh(made) && Separate(copies)
      invariant items !in made && items !in shared
    {
      var copy := source[k].DeepCopy();
      items[k] := copy;
      OneMore(copies, copy);
      OneMoreHeld(copies, copy);
      copies := copies + [copy];
      made := made + copy.Refs();
    }
    assert items[..] == copies && values[..source.Length] == values;
  }

  /** A TunnelList; `items` is nil or a slice of structs. */
  class TunnelListObject {
    var resourceVersion: string
    var items: array?<TunnelStruct>

    constructor ()
      ensures items == null && resourceVersion == ""
    {
      resourceVersion, items := "", null;
    }

    method DeepCopyInto(out: TunnelListObject)
      modifies out
      ensures out.resourceVersion == old(resourceVersion)
      ensures out.items == null <==> old(items) == null
      ensures old(items) != null ==>
                && fresh(out.items) && ContentsOf(out.items[..]) == old(ContentsOf(items[..]))
                && fresh(AllRefs(out.items[..])) && Separate(out.items[..])
    {
      hide ContentsOf, Separate, AllRefs;
      var source := items;
      out.resourceVersion, out.items := resourceVersion, source;
      if source != null {
        out.items := CopyItems(source);
      }
    }

    static method DeepCopy(from: TunnelListObject?) returns (out: TunnelListObject?)
      ensures out == null <==> from == null
      ensures from != null ==>
                fresh(out) && out.resourceVersion == from.resourceVersion && (out.items == null <==> from.items == null)
      ensures from != null && from.items != null ==>
                && fresh(out.items) && ContentsOf(out.items[..]) == old(ContentsOf(from.items[..]))
                && fresh(AllRefs(out.items[..])) && Separate(out.items[..])
    {
      hide ContentsOf, Separate, AllRefs;
      if from == null { return null; }
      out := new TunnelListObject();
      from.DeepCopyInto(out);
    }
  }
}
