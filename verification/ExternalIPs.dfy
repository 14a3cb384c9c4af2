/** The edits updateService makes to a Service's ExternalIPs (controller.go, updateService). */
module ExternalIPs {
  import opened Resources

  /** One write of a Service's ExternalIPs. `Put` is a write by anybody else. */
  datatype EditOp =
    | Publish(uid: nat, rv: nat, ip: string)
    | Withdraw(ip: string)
    | Put(ips: seq<string>)

  datatype Edit = Edit(service: Key, op: EditOp)

  /** The order-preserving filter of the withdraw branch. */
  function Without(ips: seq<string>, ip: string): seq<string> {
    if ips == [] then []
    else
      var rest := Without(ips[..|ips| - 1], ip);
      if ips[|ips| - 1] != ip then rest + [ips[|ips| - 1]] else rest
  }

  function Apply(op: EditOp, ips: seq<string>): seq<string> {
    match op
    case Publish(_, _, ip) => ips + [ip]
    case Withdraw(ip) => Without(ips, ip)
    case Put(list) => list
  }

  /** The list the whole edit log leaves on service `k`. */
  function Fold(edits: seq<Edit>, k: Key): seq<string> {
    if edits == [] then []
    else
      var last := edits[|edits| - 1];
      var before := Fold(edits[..|edits| - 1], k);
      if last.service == k then Apply(last.op, before) else before
  }

  lemma FoldSnoc(edits: seq<Edit>, e: Edit, k: Key)
    ensures Fold(edits + [e], k)
         == if e.service == k then Apply(e.op, Fold(edits, k)) else Fold(edits, k)
  {
    assert (edits + [e])[..|edits|] == edits;
  }

  // ---- Appending and filtering -------------------------------------------------

  lemma {:induction false} WithoutConcat(a: seq<string>, b: seq<string>, ip: string)
    ensures Without(a + b, ip) == Without(a, ip) + Without(b, ip)
  {
    if b == [] {
      assert a + b == a;
    } else {
      var last := |b| - 1;
      assert (a + b)[..|a + b| - 1] == a + b[..last];
      WithoutConcat(a, b[..last], ip);
    }
  }

  /** Exactly the addresses equal to `ip` go. */
  lemma {:induction false} WithoutRemovesAll(ips: seq<string>, ip: string)
    ensures multiset(Without(ips, ip)) == multiset(ips)[ip := 0]
    ensures ip !in ips ==> Without(ips, ip) == ips
  {
    if ips != [] {
      var last := |ips| - 1;
      WithoutRemovesAll(ips[..last], ip);
      assert ips == ips[..last] + [ips[last]];
    }
  }

  /** The list after a sequence of edits of one Service. */
  function ApplyAll(ops: seq<EditOp>, ips: seq<string>): seq<string> {
    if ops == [] then ips else Apply(ops[|ops| - 1], ApplyAll(ops[..|ops| - 1], ips))
  }

  predicate LeavesAlone(ops: seq<EditOp>, ip: string) {
    forall i :: 0 <= i < |ops| ==>
      match ops[i]
      case Publish(_, _, other) => other != ip
      case Withdraw(other) => other != ip
      case Put(_) => false
  }

  lemma {:induction false} WithoutCommutes(ips: seq<string>, a: string, b: string)
    ensures Without(Without(ips, a), b) == Without(Without(ips, b), a)
  {
    if ips != [] {
      var last := |ips| - 1;
      var rest := ips[..last];
      WithoutCommutes(rest, a, b);
      WithoutConcat(Without(rest, a), [ips[last]], b);
      WithoutConcat(Without(rest, b), [ips[last]], a);
    }
  }

  lemma {:induction false} EditsAroundAnAddress(ops: seq<EditOp>, with: seq<string>, without: seq<string>, ip: string)
    requires LeavesAlone(ops, ip) && Without(with, ip) == without
    ensures Without(ApplyAll(ops, with), ip) == ApplyAll(ops, without)
  {
    if ops != [] {
      var last := |ops| - 1;
      EditsAroundAnAddress(ops[..last], with, without, ip);
      var x := ApplyAll(ops[..last], with);
      match ops[last]
      case Publish(_, _, other) => WithoutConcat(x, [other], ip);
      case Withdraw(other) => WithoutCommutes(x, ip, other);
    }
  }

  /** Publishing an address that was absent and withdrawing it again leaves what the edits
      of other addresses in between would have made of the original list. */
  lemma PublishThenWithdraw(ips: seq<string>, ip: string, uid: nat, rv: nat, between: seq<EditOp>)
    requires ip !in ips && LeavesAlone(between, ip)
    ensures Apply(Withdraw(ip), ApplyAll(between, Apply(Publish(uid, rv, ip), ips))) == ApplyAll(between, ips)
  {
    WithoutConcat(ips, [ip], ip);
    WithoutRemovesAll(ips, ip);
    assert Without([ip], ip) == [];
    EditsAroundAnAddress(between, ips + [ip], ips, ip);
  }

  // ---- Which addresses are on the list --------------------------------------------

  /** The edit puts `ip` on the list ... */
  predicate Adds(op: EditOp, ip: string) {
    match op
    case Publish(_, _, other) => other == ip
    case Withdraw(_) => false
    case Put(list) => ip in list
  }

  /** ... or takes it off, if it is there. */
  predicate Drops(op: EditOp, ip: string) {
    match op
    case Publish(_, _, _) => false
    case Withdraw(other) => other == ip
    case Put(list) => ip !in list
  }

  predicate KeptSince(edits: seq<Edit>, k: Key, ip: string, i: nat) {
    forall j :: i < j < |edits| && edits[j].service == k ==> !Drops(edits[j].op, ip)
  }

  /** Edit `i` added the address to service `k` and nothing after it took it off. */
  predicate LastAdded(edits: seq<Edit>, k: Key, ip: string, i: nat) {
    i < |edits| && edits[i].service == k && Adds(edits[i].op, ip) && KeptSince(edits, k, ip, i)
  }

  lemma ApplyMembers(op: EditOp, ips: seq<string>, ip: string)
    ensures ip in Apply(op, ips) <==> Adds(op, ip) || (ip in ips && !Drops(op, ip))
  {
    if op.Withdraw? {
      WithoutRemovesAll(ips, op.ip);
      assert ip in Without(ips, op.ip) <==> ip in multiset(Without(ips, op.ip));
      assert ip in ips <==> ip in multiset(ips);
    }
  }

  /** An address is on a Service's list exactly if some edit added it and no later edit of that
      Service took it off: a publication that comes after the withdrawal stays. */
  lemma {:induction false} OnListExactly(edits: seq<Edit>, k: Key, ip: string)
    ensures ip in Fold(edits, k) <==> exists i: nat :: LastAdded(edits, k, ip, i)
  {
    if edits != [] {
      var n := |edits| - 1;
      var before, e := edits[..n], edits[n];
      OnListExactly(before, k, ip);
      ApplyMembers(e.op, Fold(before, k), ip);
      if ip in Fold(edits, k) {
        if e.service == k && Adds(e.op, ip) {
          assert LastAdded(edits, k, ip, n);
        } else {
          var i: nat :| LastAdded(before, k, ip, i);
          assert LastAdded(edits, k, ip, i);
        }
      }
      forall i: nat | LastAdded(edits, k, ip, i) ensures ip in Fold(edits, k) {
        if i < n { assert LastAdded(before, k, ip, i); }
      }
    }
  }
}
