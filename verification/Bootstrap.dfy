/** The Envoy bootstrap as the decoder leaves it in memory, and its rewriting in place. */
module Bootstrap {
  import opened Tasks
  import opened Envoy

  /** A decoded value: objects are shared by reference and updated in place, arrays are only read. */
  datatype Value =
    | Null
    | Bool(bool)
    | Number(real)
    | Str(string)
    | Arr(elems: seq<Value>)
    | Obj(ref: Node)

  class Node {
    /** Where the decoder put the object; the objects made for the TCP address are in no document. */
    ghost const loc: Path
    var fields: map<string, Value>

    constructor (ghost loc: Path, fields: map<string, Value>)
      ensures this.loc == loc && this.fields == fields
    {
      this.loc, this.fields := loc, fields;
    }
  }

  /** A decoded document: what its objects hold, and how deep they are nested. */
  datatype Document = Document(heap: map<Node, map<string, Value>>, depth: nat)

  ghost predicate Placed(v: Value, loc: Path, d: Document) {
    match v
    case Obj(o) => o in d.heap && o.loc == loc && |loc| <= d.depth
    case Arr(elems) => forall i :: 0 <= i < |elems| ==> Placed(elems[i], loc + [Index(i)], d)
    case _ => true
  }

  /** Decoding builds a tree: every object is held in one place only. */
  ghost predicate IsTree(d: Document) {
    forall o, k :: o in d.heap && k in d.heap[o] ==> Placed(d.heap[o][k], o.loc + [Key(k)], d)
  }

  ghost function Room(loc: Path, d: Document): nat {
    if |loc| <= d.depth then d.depth + 1 - |loc| else 0
  }

  /** The JSON value of `v` once the objects in `hits` have had their address replaced by `t`. */
  ghost function View(v: Value, loc: Path, d: Document, hits: set<Node>, t: Json): Json
    requires IsTree(d) && Placed(v, loc, d)
    decreases Room(loc, d), v
  {
    match v
    case Null => JNull
    case Bool(b) => JBool(b)
    case Number(x) => JNumber(x)
    case Str(s) => JString(s)
    case Arr(elems) =>
      JArray(seq(|elems|, i requires 0 <= i < |elems| => View(elems[i], loc + [Index(i)], d, hits, t)))
    case Obj(o) =>
      var m := map k | k in d.heap[o] :: View(d.heap[o][k], loc + [Key(k)], d, hits, t);
      JObject(if o in hits then m["address" := t] else m)
  }

  /** Two sets of hits differ only in objects at or below a place. */
  ghost predicate DifferBelow(a: set<Node>, b: set<Node>, loc: Path) {
    forall o :: o in a + b && (o in a) != (o in b) ==> loc <= o.loc
  }

  ghost predicate AgreeBelow(a: set<Node>, b: set<Node>, loc: Path) {
    forall o :: o in a + b && (o in a) != (o in b) ==> !(loc <= o.loc)
  }

  lemma AgreeDeeper(a: set<Node>, b: set<Node>, loc: Path, step: Step)
    requires AgreeBelow(a, b, loc)
    ensures AgreeBelow(a, b, loc + [step])
  {
    assert loc <= loc + [step];
  }

  lemma Apart(loc: Path, s: Step, t: Step, at: Path)
    requires s != t && loc + [s] <= at
    ensures !(loc + [t] <= at)
  {
    assert at[|loc|] == s;
  }

  lemma AgreeBeside(a: set<Node>, b: set<Node>, loc: Path, s: Step, t: Step)
    requires s != t && DifferBelow(a, b, loc + [s])
    ensures AgreeBelow(a, b, loc + [t])
  {
    forall o | o in a + b && (o in a) != (o in b)
      ensures !(loc + [t] <= o.loc)
    {
      Apart(loc, s, t, o.loc);
    }
  }

  /** Hits elsewhere do not show. */
  lemma {:induction false} SameView(v: Value, loc: Path, d: Document, a: set<Node>, b: set<Node>, t: Json)
    requires IsTree(d) && Placed(v, loc, d) && AgreeBelow(a, b, loc)
    ensures View(v, loc, d, a, t) == View(v, loc, d, b, t)
    decreases Room(loc, d), v, 1
  {
    match v
    case Arr(elems) => SameElems(elems, loc, d, a, b, t, v);
    case Obj(o) =>
      SameKeyViews(o, loc, d, a, b, t, v);
      ViewByKeys(o, loc, d, a, t);
      ViewByKeys(o, loc, d, b, t);
      assert o in a <==> o in b;
    case _ =>
  }

  lemma {:induction false} SameElems(elems: seq<Value>, loc: Path, d: Document, a: set<Node>, b: set<Node>, t: Json,
          v: Value)
    requires v == Arr(elems) && IsTree(d) && Placed(v, loc, d) && AgreeBelow(a, b, loc)
    ensures View(v, loc, d, a, t) == View(v, loc, d, b, t)
    decreases Room(loc, d), v, 0
  {
    forall i | 0 <= i < |elems|
      ensures View(elems[i], loc + [Index(i)], d, a, t) == View(elems[i], loc + [Index(i)], d, b, t)
    {
      AgreeDeeper(a, b, loc, Index(i));
      SameView(elems[i], loc + [Index(i)], d, a, b, t);
    }
    assert View(v, loc, d, a, t).elems == View(v, loc, d, b, t).elems;
  }

  /** The views of what an object holds. */
  ghost function KeyViews(o: Node, loc: Path, d: Document, hits: set<Node>, t: Json): map<string, Json>
    requires IsTree(d) && Placed(Obj(o), loc, d)
  {
    map k | k in d.heap[o] :: View(d.heap[o][k], loc + [Key(k)], d, hits, t)
  }

  lemma {:induction false} SameKeyViews(o: Node, loc: Path, d: Document, a: set<Node>, b: set<Node>, t: Json, v: Value)
    requires v == Obj(o) && IsTree(d) && Placed(v, loc, d) && AgreeBelow(a, b, loc)
    ensures KeyViews(o, loc, d, a, t) == KeyViews(o, loc, d, b, t)
    decreases Room(loc, d), v, 0
  {
    forall k | k in d.heap[o]
      ensures View(d.heap[o][k], loc + [Key(k)], d, a, t) == View(d.heap[o][k], loc + [Key(k)], d, b, t)
    {
      AgreeDeeper(a, b, loc, Key(k));
      SameView(d.heap[o][k], loc + [Key(k)], d, a, b, t);
    }
  }

  lemma ViewByKeys(o: Node, loc: Path, d: Document, hits: set<Node>, t: Json)
    requires IsTree(d) && Placed(Obj(o), loc, d)
    ensures var m := KeyViews(o, loc, d, hits, t);
            View(Obj(o), loc, d, hits, t) == JObject(if o in hits then m["address" := t] else m)
  {
  }

  /** When only what is below one key of an object changes, its view changes at that key only. */
  lemma KeyChanges(o: Node, k: string, d: Document, a: set<Node>, b: set<Node>, t: Json)
    requires IsTree(d) && Placed(Obj(o), o.loc, d) && k in d.heap[o]
    requires o !in a && o !in b && DifferBelow(a, b, o.loc + [Key(k)])
    ensures View(Obj(o), o.loc, d, b, t)
         == JObject(View(Obj(o), o.loc, d, a, t).fields[k := View(d.heap[o][k], o.loc + [Key(k)], d, b, t)])
  {
    forall l | l in d.heap[o] && l != k
      ensures View(d.heap[o][l], o.loc + [Key(l)], d, a, t) == View(d.heap[o][l], o.loc + [Key(l)], d, b, t)
    {
      AgreeBeside(a, b, o.loc, Key(k), Key(l));
      SameView(d.heap[o][l], o.loc + [Key(l)], d, a, b, t);
    }
  }

  lemma ElemChanges(elems: seq<Value>, loc: Path, i: nat, d: Document, a: set<Node>, b: set<Node>, t: Json)
    requires IsTree(d) && Placed(Arr(elems), loc, d) && i < |elems| && DifferBelow(a, b, loc + [Index(i)])
    ensures View(Arr(elems), loc, d, b, t)
         == JArray(View(Arr(elems), loc, d, a, t).elems[i := View(elems[i], loc + [Index(i)], d, b, t)])
  {
    forall j | 0 <= j < |elems| && j != i
      ensures View(elems[j], loc + [Index(j)], d, a, t) == View(elems[j], loc + [Index(j)], d, b, t)
    {
      AgreeBeside(a, b, loc, Index(i), Index(j));
      SameView(elems[j], loc + [Index(j)], d, a, b, t);
    }
  }

  lemma HitChanges(o: Node, d: Document, hits: set<Node>, t: Json)
    requires IsTree(d) && Placed(Obj(o), o.loc, d) && o !in hits
    ensures View(Obj(o), o.loc, d, hits + {o}, t) == JObject(View(Obj(o), o.loc, d, hits, t).fields["address" := t])
  {
    forall l | l in d.heap[o]
      ensures View(d.heap[o][l], o.loc + [Key(l)], d, hits, t) == View(d.heap[o][l], o.loc + [Key(l)], d, hits + {o}, t)
    {
      SameView(d.heap[o][l], o.loc + [Key(l)], d, hits, hits + {o}, t);
    }
  }

  // ----- The heap while it is rewritten -----

  ghost predicate NoneBelow(hits: set<Node>, loc: Path) {
    forall o :: o in hits ==> !(loc <= o.loc)
  }

  lemma NoneDeeper(hits: set<Node>, loc: Path, step: Step)
    requires NoneBelow(hits, loc)
    ensures NoneBelow(hits, loc + [step])
  {
    assert loc <= loc + [step];
  }

  lemma NoneBeside(a: set<Node>, b: set<Node>, loc: Path, s: Step, t: Step)
    requires s != t && DifferBelow(a, b, loc + [s]) && NoneBelow(a, loc + [t])
    ensures NoneBelow(b, loc + [t])
  {
    AgreeBeside(a, b, loc, s, t);
  }

  ghost predicate Ready(v: Value, loc: Path, d: Document, hits: set<Node>) {
    IsTree(d) && Placed(v, loc, d) && NoneBelow(hits, loc)
  }

  /** Each object holds what was decoded, but the hits have `tcp` for an address. */
  ghost predicate Holds(d: Document, hits: set<Node>, tcp: Node)
    reads d.heap.Keys
  {
    forall o :: o in d.heap ==> o.fields == if o in hits then d.heap[o]["address" := Obj(tcp)] else d.heap[o]
  }

  lemma ObjectView(o: Node, d: Document, hits: set<Node>, t: Json)
    requires Ready(Obj(o), o.loc, d, hits)
    ensures var m := View(Obj(o), o.loc, d, hits, t).fields;
            && m.Keys == d.heap[o].Keys
            && forall k :: k in m ==>
                 && Ready(d.heap[o][k], o.loc + [Key(k)], d, hits)
                 && m[k] == View(d.heap[o][k], o.loc + [Key(k)], d, hits, t)
                 && (m[k].JObject? <==> d.heap[o][k].Obj?) && (m[k].JArray? <==> d.heap[o][k].Arr?)
  {
    forall k | k in d.heap[o]
      ensures Ready(d.heap[o][k], o.loc + [Key(k)], d, hits)
    {
      NoneDeeper(hits, o.loc, Key(k));
    }
  }

  // ----- One load-balanced endpoint -----

  predicate HoldsObject(m: map<string, Value>, k: string) {
    k in m && m[k].Obj?
  }

  /** What the code looks at, read off the document. */
  ghost predicate PipeHeld(m: map<string, Value>, d: Document) {
    && HoldsObject(m, "endpoint") && m["endpoint"].ref in d.heap
    && var e := d.heap[m["endpoint"].ref];
       HoldsObject(e, "address") && e["address"].ref in d.heap && "pipe" in d.heap[e["address"].ref]
  }

  lemma PipeSeen(lbe: Node, d: Document, hits: set<Node>, t: Json)
    requires Ready(Obj(lbe), lbe.loc, d, hits)
    ensures PipeHeld(d.heap[lbe], d) <==> PipeInLb(View(Obj(lbe), lbe.loc, d, hits, t))
  {
    ObjectView(lbe, d, hits, t);
    if HoldsObject(d.heap[lbe], "endpoint") {
      var endpoint := d.heap[lbe]["endpoint"].ref;
      ObjectView(endpoint, d, hits, t);
      if HoldsObject(d.heap[endpoint], "address") {
        ObjectView(d.heap[endpoint]["address"].ref, d, hits, t);
      }
    }
  }

  lemma LbHit(lbe: Node, endpoint: Node, d: Document, hits: set<Node>, t: Json)
    requires Ready(Obj(lbe), lbe.loc, d, hits)
    requires PipeHeld(d.heap[lbe], d) && d.heap[lbe]["endpoint"] == Obj(endpoint)
    ensures View(Obj(lbe), lbe.loc, d, hits + {endpoint}, t) == RewriteLb(View(Obj(lbe), lbe.loc, d, hits, t), t)
    ensures DifferBelow(hits, hits + {endpoint}, lbe.loc)
  {
    PipeSeen(lbe, d, hits, t);
    EndpointPlaced(lbe, endpoint, d, hits, t);
    HitChanges(endpoint, d, hits, t);
    KeyChanges(lbe, "endpoint", d, hits, hits + {endpoint}, t);
  }

  lemma EndpointPlaced(lbe: Node, endpoint: Node, d: Document, hits: set<Node>, t: Json)
    requires Ready(Obj(lbe), lbe.loc, d, hits) && "endpoint" in d.heap[lbe] && d.heap[lbe]["endpoint"] == Obj(endpoint)
    ensures endpoint.loc == lbe.loc + [Key("endpoint")] && endpoint != lbe && lbe !in hits
    ensures Ready(Obj(endpoint), endpoint.loc, d, hits) && endpoint !in hits
    ensures var m := View(Obj(lbe), lbe.loc, d, hits, t).fields;
            "endpoint" in m && m["endpoint"] == View(Obj(endpoint), endpoint.loc, d, hits, t)
    ensures DifferBelow(hits, hits + {endpoint}, lbe.loc + [Key("endpoint")])
            && DifferBelow(hits, hits + {endpoint}, lbe.loc)
  {
    ObjectView(lbe, d, hits, t);
    assert lbe.loc != endpoint.loc;
  }

  lemma ChildReady(o: Node, k: string, d: Document, hits: set<Node>)
    requires Ready(Obj(o), o.loc, d, hits) && k in d.heap[o]
    ensures Ready(d.heap[o][k], o.loc + [Key(k)], d, hits)
    ensures d.heap[o][k].Obj? ==> d.heap[o][k].ref in d.heap && d.heap[o][k].ref !in hits
  {
    NoneDeeper(hits, o.loc, Key(k));
  }

  method PutAddress(endpoint: Node, tcp: Node, ghost d: Document, ghost hits: set<Node>)
    requires endpoint in d.heap && endpoint !in hits && Holds(d, hits, tcp)
    modifies endpoint
    ensures Holds(d, hits + {endpoint}, tcp)
  {
    endpoint.fields := endpoint.fields["address" := Obj(tcp)];
  }

  method VisitLbEndpoint(v: Value, tcp: Node, ghost loc: Path, ghost d: Document, ghost hits: set<Node>, ghost t: Json)
    returns (found: bool, ghost now: set<Node>)
    requires Ready(v, loc, d, hits) && Holds(d, hits, tcp)
    modifies d.heap.Keys
    ensures Holds(d, now, tcp) && DifferBelow(hits, now, loc) && (!found ==> now == hits)
    ensures View(v, loc, d, now, t) == RewriteLb(View(v, loc, d, hits, t), t)
    ensures found <==> PipeInLb(View(v, loc, d, hits, t))
  {
    found, now := false, hits;
    if v.Obj? {
      var lbe := v.ref;
      assert lbe !in hits;
      PipeSeen(lbe, d, hits, t);
      if HoldsObject(lbe.fields, "endpoint") {
        ChildReady(lbe, "endpoint", d, hits);
        var endpoint := lbe.fields["endpoint"].ref;
        if HoldsObject(endpoint.fields, "address") {
          ChildReady(endpoint, "address", d, hits);
          if "pipe" in endpoint.fields["address"].ref.fields {
            LbHit(lbe, endpoint, d, hits, t);
            PutAddress(endpoint, tcp, d, hits);
            found, now := true, hits + {endpoint};
          }
        }
      }
    }
  }

  // ----- Arrays of endpoints -----

  ghost function ViewOf(elems: seq<Value>, loc: Path, d: Document, hits: set<Node>, t: Json): seq<Json>
    requires IsTree(d) && Placed(Arr(elems), loc, d)
  {
    View(Arr(elems), loc, d, hits, t).elems
  }

  lemma ElemReady(elems: seq<Value>, loc: Path, i: nat, d: Document, hits: set<Node>, t: Json)
    requires IsTree(d) && Placed(Arr(elems), loc, d) && i < |elems| && NoneBelow(hits, loc + [Index(i)])
    ensures Ready(elems[i], loc + [Index(i)], d, hits)
    ensures |ViewOf(elems, loc, d, hits, t)| == |elems|
    ensures ViewOf(elems, loc, d, hits, t)[i] == View(elems[i], loc + [Index(i)], d, hits, t)
  {
  }

  /** Between two visits: what is before `i` may have been hit, what is from `i` on has not. */
  ghost predicate Reached(loc: Path, i: nat, n: nat, hits: set<Node>, now: set<Node>) {
    DifferBelow(hits, now, loc) && forall j :: i <= j < n ==> NoneBelow(now, loc + [Index(j)])
  }

  lemma ReachedFirst(loc: Path, n: nat, hits: set<Node>)
    requires NoneBelow(hits, loc)
    ensures Reached(loc, 0, n, hits, hits)
  {
    forall j | 0 <= j < n ensures NoneBelow(hits, loc + [Index(j)]) {
      NoneDeeper(hits, loc, Index(j));
    }
  }

  lemma ReachedNext(loc: Path, i: nat, n: nat, hits: set<Node>, now: set<Node>, next: set<Node>)
    requires i < n && Reached(loc, i, n, hits, now) && DifferBelow(now, next, loc + [Index(i)])
    ensures Reached(loc, i + 1, n, hits, next)
  {
    assert loc <= loc + [Index(i)];
    forall j | i + 1 <= j < n ensures NoneBelow(next, loc + [Index(j)]) {
      NoneBeside(now, next, loc, Index(i), Index(j));
    }
  }

  /** One visit of a loop over an array: the element visited has its new view, the others theirs, and the
      later elements are still without a hit. */
  lemma Visited(elems: seq<Value>, loc: Path, i: nat, d: Document, hits: set<Node>, now: set<Node>, next: set<Node>,
          t: Json)
    requires IsTree(d) && Placed(Arr(elems), loc, d) && i < |elems| && Reached(loc, i, |elems|, hits, now)
    requires DifferBelow(now, next, loc + [Index(i)])
    ensures Placed(elems[i], loc + [Index(i)], d) && |ViewOf(elems, loc, d, now, t)| == |elems|
    ensures ViewOf(elems, loc, d, next, t)
            == ViewOf(elems, loc, d, now, t)[i := View(elems[i], loc + [Index(i)], d, next, t)]
    ensures Reached(loc, i + 1, |elems|, hits, next)
  {
    ElemChanges(elems, loc, i, d, now, next, t);
    ReachedNext(loc, i, |elems|, hits, now, next);
  }

  method VisitLbEndpoints(elems: seq<Value>, tcp: Node, ghost loc: Path, ghost d: Document, ghost hits: set<Node>,
          ghost t: Json)
    returns (found: bool, ghost now: set<Node>)
    requires Ready(Arr(elems), loc, d, hits) && Holds(d, hits, tcp)
    modifies d.heap.Keys
    ensures Holds(d, now, tcp) && DifferBelow(hits, now, loc) && (!found ==> now == hits)
    ensures var was, rewritten := ViewOf(elems, loc, d, hits, t), ViewOf(elems, loc, d, now, t);
            && |rewritten| == |was| == |elems|
            && (forall j :: 0 <= j < |was| ==> rewritten[j] == RewriteLb(was[j], t))
            && (found <==> exists j :: 0 <= j < |was| && PipeInLb(was[j]))
  {
    found, now := false, hits;
    ghost var was := ViewOf(elems, loc, d, hits, t);
    ghost var view := was;
    ReachedFirst(loc, |elems|, hits);
    for i := 0 to |elems|
      invariant Holds(d, now, tcp) && Reached(loc, i, |elems|, hits, now)
      invariant view == ViewOf(elems, loc, d, now, t) && |view| == |was| == |elems|
      invariant forall j :: 0 <= j < |elems| ==> view[j] == if j < i then RewriteLb(was[j], t) else was[j]
      invariant found <==> exists j :: 0 <= j < i && PipeInLb(was[j])
      invariant !found ==> now == hits
    {
      ElemReady(elems, loc, i, d, now, t);
      var hit, next := VisitLbEndpoint(elems[i], tcp, loc + [Index(i)], d, now, t);
      Visited(elems, loc, i, d, hits, now, next, t);
      found, now := found || hit, next;
      view := ViewOf(elems, loc, d, now, t);
    }
  }

  // ----- Looking a key up under either spelling -----

  datatype Kind = Map | Slice

  predicate Held(m: map<string, Value>, k: string, kind: Kind) {
    k in m && if kind == Map then m[k].Obj? else m[k].Arr?
  }

  function FirstHeld(m: map<string, Value>, keys: seq<string>, kind: Kind): Option<string> {
    if keys == [] then None
    else if Held(m, keys[0], kind) then Some(keys[0])
    else FirstHeld(m, keys[1..], kind)
  }

  method JsonMap(m: map<string, Value>, keys: seq<string>) returns (k: Option<string>)
    ensures k == FirstHeld(m, keys, Map)
    ensures k.Some? ==> k.value in m && m[k.value].Obj?
  {
    for i := 0 to |keys|
      invariant FirstHeld(m, keys, Map) == FirstHeld(m, keys[i..], Map)
    {
      if keys[i] in m && m[keys[i]].Obj? {
        return Some(keys[i]);
      }
    }
    return None;
  }

  method JsonSlice(m: map<string, Value>, keys: seq<string>) returns (k: Option<string>)
    ensures k == FirstHeld(m, keys, Slice)
    ensures k.Some? ==> k.value in m && m[k.value].Arr?
  {
    for i := 0 to |keys|
      invariant FirstHeld(m, keys, Slice) == FirstHeld(m, keys[i..], Slice)
    {
      if keys[i] in m && m[keys[i]].Arr? {
        return Some(keys[i]);
      }
    }
    return None;
  }

  const LB_KEYS := ["lb_endpoints", "lbEndpoints"]
  const ASSIGNMENT_KEYS := ["load_assignment", "loadAssignment"]

  lemma FirstOfTwo(m: map<string, Value>, a: string, b: string, kind: Kind)
    ensures FirstHeld(m, [a, b], kind)
            == if Held(m, a, kind) then Some(a) else if Held(m, b, kind) then Some(b) else None
  {
    assert [a, b][1..] == [b];
    assert FirstHeld(m, [b][1..], kind) == None;
  }

  // ----- One endpoint group -----

  lemma LbSeen(o: Node, d: Document, hits: set<Node>, t: Json)
    requires Ready(Obj(o), o.loc, d, hits)
    ensures FirstHeld(d.heap[o], LB_KEYS, Slice) == LbKey(View(Obj(o), o.loc, d, hits, t).fields)
  {
    FirstOfTwo(d.heap[o], "lb_endpoints", "lbEndpoints", Slice);
    ObjectView(o, d, hits, t);
  }

  method VisitEndpoint(v: Value, tcp: Node, ghost loc: Path, ghost d: Document, ghost hits: set<Node>, ghost t: Json)
    returns (found: bool, ghost now: set<Node>)
    requires Ready(v, loc, d, hits) && Holds(d, hits, tcp)
    modifies d.heap.Keys
    ensures Holds(d, now, tcp) && DifferBelow(hits, now, loc) && (!found ==> now == hits)
    ensures View(v, loc, d, now, t) == RewriteEndpoint(View(v, loc, d, hits, t), t)
    ensures found <==> PipeInEndpoint(View(v, loc, d, hits, t))
  {
    found, now := false, hits;
    if v.Obj? {
      var ep := v.ref;
      assert ep !in hits;
      var k := JsonSlice(ep.fields, LB_KEYS);
      LbSeen(ep, d, hits, t);
      if k.Some? {
        ChildReady(ep, k.value, d, hits);
        found, now := VisitLbEndpoints(ep.fields[k.value].elems, tcp, loc + [Key(k.value)], d, hits, t);
        EndpointVisited(ep, k.value, d, hits, now, t);
      }
    }
  }

  lemma EndpointVisited(ep: Node, k: string, d: Document, hits: set<Node>, now: set<Node>, t: Json)
    requires Ready(Obj(ep), ep.loc, d, hits) && FirstHeld(d.heap[ep], LB_KEYS, Slice) == Some(k)
    requires k in d.heap[ep] && d.heap[ep][k].Arr? && DifferBelow(hits, now, ep.loc + [Key(k)])
    requires var was := ViewOf(d.heap[ep][k].elems, ep.loc + [Key(k)], d, hits, t);
             var rewritten := ViewOf(d.heap[ep][k].elems, ep.loc + [Key(k)], d, now, t);
             |rewritten| == |was| && forall j :: 0 <= j < |was| ==> rewritten[j] == RewriteLb(was[j], t)
    ensures View(Obj(ep), ep.loc, d, now, t) == RewriteEndpoint(View(Obj(ep), ep.loc, d, hits, t), t)
    ensures DifferBelow(hits, now, ep.loc)
    ensures HasLb(View(Obj(ep), ep.loc, d, hits, t))
    ensures LbOf(View(Obj(ep), ep.loc, d, hits, t)) == ViewOf(d.heap[ep][k].elems, ep.loc + [Key(k)], d, hits, t)
  {
    LbSeen(ep, d, hits, t);
    ObjectView(ep, d, hits, t);
    assert ep.loc <= ep.loc + [Key(k)];
    assert ep !in now by {
      assert !(ep.loc + [Key(k)] <= ep.loc);
    }
    KeyChanges(ep, k, d, hits, now, t);
    var lb := LbOf(View(Obj(ep), ep.loc, d, hits, t));
    assert ViewOf(d.heap[ep][k].elems, ep.loc + [Key(k)], d, now, t)
            == seq(|lb|, i requires 0 <= i < |lb| => RewriteLb(lb[i], t));
  }

  method VisitEndpoints(elems: seq<Value>, tcp: Node, ghost loc: Path, ghost d: Document, ghost hits: set<Node>,
          ghost t: Json)
    returns (found: bool, ghost now: set<Node>)
    requires Ready(Arr(elems), loc, d, hits) && Holds(d, hits, tcp)
    modifies d.heap.Keys
    ensures Holds(d, now, tcp) && DifferBelow(hits, now, loc) && (!found ==> now == hits)
    ensures var was, rewritten := ViewOf(elems, loc, d, hits, t), ViewOf(elems, loc, d, now, t);
            && |rewritten| == |was| == |elems|
            && (forall j :: 0 <= j < |was| ==> rewritten[j] == RewriteEndpoint(was[j], t))
            && (found <==> exists j :: 0 <= j < |was| && PipeInEndpoint(was[j]))
  {
    found, now := false, hits;
    ghost var was := ViewOf(elems, loc, d, hits, t);
    ghost var view := was;
    ReachedFirst(loc, |elems|, hits);
    for i := 0 to |elems|
      invariant Holds(d, now, tcp) && Reached(loc, i, |elems|, hits, now)
      invariant view == ViewOf(elems, loc, d, now, t) && |view| == |was| == |elems|
      invariant forall j :: 0 <= j < |elems| ==> view[j] == if j < i then RewriteEndpoint(was[j], t) else was[j]
      invariant found <==> exists j :: 0 <= j < i && PipeInEndpoint(was[j])
      invariant !found ==> now == hits
    {
      ElemReady(elems, loc, i, d, now, t);
      var hit, next := VisitEndpoint(elems[i], tcp, loc + [Index(i)], d, now, t);
      Visited(elems, loc, i, d, hits, now, next, t);
      found, now := found || hit, next;
      view := ViewOf(elems, loc, d, now, t);
    }
  }

  // ----- One cluster -----

  lemma AssignmentSeen(o: Node, d: Document, hits: set<Node>, t: Json)
    requires Ready(Obj(o), o.loc, d, hits)
    ensures FirstHeld(d.heap[o], ASSIGNMENT_KEYS, Map) == AssignmentKey(View(Obj(o), o.loc, d, hits, t).fields)
  {
    FirstOfTwo(d.heap[o], "load_assignment", "loadAssignment", Map);
    ObjectView(o, d, hits, t);
  }

  predicate IsLocalAgent(m: map<string, Value>) {
    "name" in m && m["name"] == Str("local_agent")
  }

  /** The load assignment of a cluster the rewriting goes into, and the key it is under. */
  ghost predicate Assigned(cluster: Node, k: string, la: Node, d: Document) {
    && cluster in d.heap && IsLocalAgent(d.heap[cluster]) && FirstHeld(d.heap[cluster], ASSIGNMENT_KEYS, Map) == Some(k)
    && k in d.heap[cluster] && d.heap[cluster][k] == Obj(la) && la in d.heap
  }

  lemma ClusterSeen(cluster: Node, d: Document, hits: set<Node>, t: Json)
    requires Ready(Obj(cluster), cluster.loc, d, hits)
    ensures var key := FirstHeld(d.heap[cluster], ASSIGNMENT_KEYS, Map);
            HasEndpoints(View(Obj(cluster), cluster.loc, d, hits, t)) <==>
            && IsLocalAgent(d.heap[cluster]) && key.Some? && HoldsObject(d.heap[cluster], key.value)
            && d.heap[cluster][key.value].ref in d.heap
            && Held(d.heap[d.heap[cluster][key.value].ref], "endpoints", Slice)
  {
    AssignmentSeen(cluster, d, hits, t);
    ObjectView(cluster, d, hits, t);
    var key := FirstHeld(d.heap[cluster], ASSIGNMENT_KEYS, Map);
    if key.Some? {
      ObjectView(d.heap[cluster][key.value].ref, d, hits, t);
    }
  }

  lemma BelowTwo(loc: Path, s: Step, t: Step, a: set<Node>, b: set<Node>)
    requires DifferBelow(a, b, loc + [s] + [t])
    ensures DifferBelow(a, b, loc) && DifferBelow(a, b, loc + [s])
    ensures forall o :: o in b && o.loc in {loc, loc + [s]} ==> o in a
  {
    assert loc <= loc + [s] <= loc + [s] + [t];
    assert !(loc + [s] + [t] <= loc) && !(loc + [s] + [t] <= loc + [s]);
  }

  /** When only what is below two nested keys changes. */
  lemma NestedKeyChanges(o: Node, k: string, c: Node, l: string, d: Document, hits: set<Node>, now: set<Node>, t: Json)
    requires Ready(Obj(o), o.loc, d, hits) && k in d.heap[o] && d.heap[o][k] == Obj(c)
    requires c in d.heap && l in d.heap[c] && c.loc == o.loc + [Key(k)] && DifferBelow(hits, now, c.loc + [Key(l)])
    ensures var was := View(Obj(o), o.loc, d, hits, t).fields;
            && IsObject(was, k) && l in was[k].fields
            && was[k].fields[l] == View(d.heap[c][l], c.loc + [Key(l)], d, hits, t)
            && View(Obj(o), o.loc, d, now, t)
            == JObject(was[k := JObject(was[k].fields[l := View(d.heap[c][l], c.loc + [Key(l)], d, now, t)])])
    ensures DifferBelow(hits, now, o.loc)
  {
    ObjectView(o, d, hits, t);
    ObjectView(c, d, hits, t);
    BelowTwo(o.loc, Key(k), Key(l), hits, now);
    KeyChanges(c, l, d, hits, now, t);
    KeyChanges(o, k, d, hits, now, t);
  }

  lemma ClusterVisited(cluster: Node, k: string, la: Node, d: Document, hits: set<Node>, now: set<Node>, t: Json)
    requires Ready(Obj(cluster), cluster.loc, d, hits) && Assigned(cluster, k, la, d)
            && Held(d.heap[la], "endpoints", Slice)
    requires la.loc == cluster.loc + [Key(k)] && Ready(d.heap[la]["endpoints"], la.loc + [Key("endpoints")], d, hits)
    requires DifferBelow(hits, now, la.loc + [Key("endpoints")])
    requires var was := ViewOf(d.heap[la]["endpoints"].elems, la.loc + [Key("endpoints")], d, hits, t);
             var rewritten := ViewOf(d.heap[la]["endpoints"].elems, la.loc + [Key("endpoints")], d, now, t);
             |rewritten| == |was| && forall j :: 0 <= j < |was| ==> rewritten[j] == RewriteEndpoint(was[j], t)
    ensures View(Obj(cluster), cluster.loc, d, now, t) == RewriteCluster(View(Obj(cluster), cluster.loc, d, hits, t), t)
    ensures DifferBelow(hits, now, cluster.loc)
    ensures HasEndpoints(View(Obj(cluster), cluster.loc, d, hits, t))
    ensures EndpointsOf(View(Obj(cluster), cluster.loc, d, hits, t))
         == ViewOf(d.heap[la]["endpoints"].elems, la.loc + [Key("endpoints")], d, hits, t)
  {
    ClusterSeen(cluster, d, hits, t);
    AssignmentSeen(cluster, d, hits, t);
    NestedKeyChanges(cluster, k, la, "endpoints", d, hits, now, t);
    var es := EndpointsOf(View(Obj(cluster), cluster.loc, d, hits, t));
    assert ViewOf(d.heap[la]["endpoints"].elems, la.loc + [Key("endpoints")], d, now, t)
        == seq(|es|, i requires 0 <= i < |es| => RewriteEndpoint(es[i], t));
  }

  method VisitCluster(v: Value, tcp: Node, ghost loc: Path, ghost d: Document, ghost hits: set<Node>, ghost t: Json)
    returns (found: bool, ghost now: set<Node>)
    requires Ready(v, loc, d, hits) && Holds(d, hits, tcp)
    modifies d.heap.Keys
    ensures Holds(d, now, tcp) && DifferBelow(hits, now, loc) && (!found ==> now == hits)
    ensures View(v, loc, d, now, t) == RewriteCluster(View(v, loc, d, hits, t), t)
    ensures found <==> PipeInCluster(View(v, loc, d, hits, t))
  {
    found, now := false, hits;
    if v.Obj? {
      var cluster := v.ref;
      assert cluster !in hits;
      ClusterSeen(cluster, d, hits, t);
      if IsLocalAgent(cluster.fields) {
        var k := JsonMap(cluster.fields, ASSIGNMENT_KEYS);
        if k.Some? {
          ChildReady(cluster, k.value, d, hits);
          var la := cluster.fields[k.value].ref;
          var e := JsonSlice(la.fields, ["endpoints"]);
          assert ["endpoints"][1..] == [];
          if e.Some? {
            ChildReady(la, "endpoints", d, hits);
            found, now := VisitEndpoints(la.fields["endpoints"].elems, tcp, la.loc + [Key("endpoints")], d, hits, t);
            ClusterVisited(cluster, k.value, la, d, hits, now, t);
          }
        }
      }
    }
  }

  method VisitClusters(elems: seq<Value>, tcp: Node, ghost loc: Path, ghost d: Document, ghost hits: set<Node>,
          ghost t: Json)
    returns (found: bool, ghost now: set<Node>)
    requires Ready(Arr(elems), loc, d, hits) && Holds(d, hits, tcp)
    modifies d.heap.Keys
    ensures Holds(d, now, tcp) && DifferBelow(hits, now, loc) && (!found ==> now == hits)
    ensures var was, rewritten := ViewOf(elems, loc, d, hits, t), ViewOf(elems, loc, d, now, t);
            && |rewritten| == |was| == |elems|
            && (forall j :: 0 <= j < |was| ==> rewritten[j] == RewriteCluster(was[j], t))
            && (found <==> exists j :: 0 <= j < |was| && PipeInCluster(was[j]))
  {
    found, now := false, hits;
    ghost var was := ViewOf(elems, loc, d, hits, t);
    ghost var view := was;
    ReachedFirst(loc, |elems|, hits);
    for i := 0 to |elems|
      invariant Holds(d, now, tcp) && Reached(loc, i, |elems|, hits, now)
      invariant view == ViewOf(elems, loc, d, now, t) && |view| == |was| == |elems|
      invariant forall j :: 0 <= j < |elems| ==> view[j] == if j < i then RewriteCluster(was[j], t) else was[j]
      invariant found <==> exists j :: 0 <= j < i && PipeInCluster(was[j])
      invariant !found ==> now == hits
    {
      ElemReady(elems, loc, i, d, now, t);
      var hit, next := VisitCluster(elems[i], tcp, loc + [Index(i)], d, now, t);
      Visited(elems, loc, i, d, hits, now, next, t);
      found, now := found || hit, next;
      view := ViewOf(elems, loc, d, now, t);
    }
  }

  // ----- The whole bootstrap -----

  /** What a value in memory prints as. */
  ghost predicate Shows(v: Value, j: Json, objects: set<Node>)
    reads objects
    decreases j
  {
    match (v, j)
    case (Null, JNull) => true
    case (Bool(a), JBool(b)) => a == b
    case (Number(a), JNumber(b)) => a == b
    case (Str(a), JString(b)) => a == b
    case (Arr(a), JArray(b)) => |a| == |b| && forall i :: 0 <= i < |a| ==> Shows(a[i], b[i], objects)
    case (Obj(o), JObject(m)) =>
      o in objects && o.fields.Keys == m.Keys && forall k :: k in m ==> Shows(o.fields[k], m[k], objects)
    case _ => false
  }

  lemma {:induction false} ShowsOne(v: Value, a: Json, b: Json, objects: set<Node>)
    requires Shows(v, a, objects) && Shows(v, b, objects)
    ensures a == b
    decreases a
  {
    if v.Arr? {
      forall i | 0 <= i < |v.elems|
        ensures a.elems[i] == b.elems[i]
      {
        ShowsOne(v.elems[i], a.elems[i], b.elems[i], objects);
      }
    } else if v.Obj? {
      forall k | k in v.ref.fields
        ensures a.fields[k] == b.fields[k]
      {
        ShowsOne(v.ref.fields[k], a.fields[k], b.fields[k], objects);
      }
    }
  }

  lemma {:induction false} ViewShows(v: Value, loc: Path, d: Document, hits: set<Node>, tcp: Node, t: Json,
          objects: set<Node>)
    requires IsTree(d) && Placed(v, loc, d) && Holds(d, hits, tcp) && d.heap.Keys <= objects
    requires hits != {} ==> Shows(Obj(tcp), t, objects)
    ensures Shows(v, View(v, loc, d, hits, t), objects)
    decreases Room(loc, d), v
  {
    match v
    case Arr(elems) =>
      forall i | 0 <= i < |elems|
        ensures Shows(elems[i], View(elems[i], loc + [Index(i)], d, hits, t), objects)
      {
        ViewShows(elems[i], loc + [Index(i)], d, hits, tcp, t, objects);
      }
    case Obj(o) =>
      forall k | k in d.heap[o]
        ensures Shows(d.heap[o][k], View(d.heap[o][k], loc + [Key(k)], d, hits, t), objects)
      {
        ViewShows(d.heap[o][k], loc + [Key(k)], d, hits, tcp, t, objects);
      }
    case _ =>
  }

  lemma {:induction false} NoHits(v: Value, loc: Path, d: Document, t: Json, u: Json)
    requires IsTree(d) && Placed(v, loc, d)
    ensures View(v, loc, d, {}, t) == View(v, loc, d, {}, u)
    decreases Room(loc, d), v
  {
    match v
    case Arr(elems) =>
      forall i | 0 <= i < |elems|
        ensures View(elems[i], loc + [Index(i)], d, {}, t) == View(elems[i], loc + [Index(i)], d, {}, u)
      {
        NoHits(elems[i], loc + [Index(i)], d, t, u);
      }
      assert View(v, loc, d, {}, t).elems == View(v, loc, d, {}, u).elems;
    case Obj(o) =>
      forall k | k in d.heap[o]
        ensures View(d.heap[o][k], loc + [Key(k)], d, {}, t) == View(d.heap[o][k], loc + [Key(k)], d, {}, u)
      {
        NoHits(d.heap[o][k], loc + [Key(k)], d, t, u);
      }
      assert View(v, loc, d, {}, t).fields == View(v, loc, d, {}, u).fields;
    case _ =>
  }

  ghost function Decoded(root: Node, d: Document): Json
    requires IsTree(d) && Placed(Obj(root), [], d)
  {
    View(Obj(root), [], d, {}, JNull)
  }

  ghost predicate Fresh(d: Document)
    reads d.heap.Keys
  {
    forall o :: o in d.heap ==> o.fields == d.heap[o]
  }

  lemma RootSeen(root: Node, d: Document, t: Json)
    requires Ready(Obj(root), [], d, {})
    ensures HasClusters(View(Obj(root), [], d, {}, t)) <==>
            && HoldsObject(d.heap[root], "static_resources") && d.heap[root]["static_resources"].ref in d.heap
            && Held(d.heap[d.heap[root]["static_resources"].ref], "clusters", Slice)
  {
    ObjectView(root, d, {}, t);
    if HoldsObject(d.heap[root], "static_resources") {
      ObjectView(d.heap[root]["static_resources"].ref, d, {}, t);
    }
  }

  lemma RootVisited(root: Node, sr: Node, d: Document, now: set<Node>, t: Json)
    requires Ready(Obj(root), [], d, {}) && HoldsObject(d.heap[root], "static_resources")
            && d.heap[root]["static_resources"] == Obj(sr)
    requires sr in d.heap && sr.loc == [] + [Key("static_resources")] && Held(d.heap[sr], "clusters", Slice)
    requires Ready(d.heap[sr]["clusters"], sr.loc + [Key("clusters")], d, {})
            && DifferBelow({}, now, sr.loc + [Key("clusters")])
    requires var was := ViewOf(d.heap[sr]["clusters"].elems, sr.loc + [Key("clusters")], d, {}, t);
             var rewritten := ViewOf(d.heap[sr]["clusters"].elems, sr.loc + [Key("clusters")], d, now, t);
             |rewritten| == |was| && forall j :: 0 <= j < |was| ==> rewritten[j] == RewriteCluster(was[j], t)
    ensures View(Obj(root), [], d, now, t) == Rewrite(View(Obj(root), [], d, {}, t), t)
    ensures HasClusters(View(Obj(root), [], d, {}, t))
    ensures ClustersOf(View(Obj(root), [], d, {}, t))
            == ViewOf(d.heap[sr]["clusters"].elems, sr.loc + [Key("clusters")], d, {}, t)
  {
    RootSeen(root, d, t);
    NestedKeyChanges(root, "static_resources", sr, "clusters", d, {}, now, t);
    var cs := ClustersOf(View(Obj(root), [], d, {}, t));
    assert ViewOf(d.heap[sr]["clusters"].elems, sr.loc + [Key("clusters")], d, now, t)
        == seq(|cs|, i requires 0 <= i < |cs| => RewriteCluster(cs[i], t));
  }

  method VisitRoot(root: Node, tcp: Node, ghost d: Document, ghost t: Json) returns (found: bool, ghost now: set<Node>)
    requires Ready(Obj(root), [], d, {}) && Fresh(d)
    modifies d.heap.Keys
    ensures Holds(d, now, tcp) && (!found ==> now == {})
    ensures View(Obj(root), [], d, now, t) == Rewrite(View(Obj(root), [], d, {}, t), t)
    ensures found <==> PipeIn(View(Obj(root), [], d, {}, t))
  {
    found, now := false, {};
    RootSeen(root, d, t);
    if HoldsObject(root.fields, "static_resources") {
      ChildReady(root, "static_resources", d, {});
      var sr := root.fields["static_resources"].ref;
      if Held(sr.fields, "clusters", Slice) {
        ChildReady(sr, "clusters", d, {});
        found, now := VisitClusters(sr.fields["clusters"].elems, tcp, sr.loc + [Key("clusters")], d, {}, t);
        RootVisited(root, sr, d, now, t);
      }
    }
  }

  lemma {:induction false} ShowsMore(v: Value, j: Json, few: set<Node>, many: set<Node>)
    requires Shows(v, j, few) && few <= many
    ensures Shows(v, j, many)
    decreases j
  {
    match (v, j)
    case (Arr(a), JArray(b)) =>
      forall i | 0 <= i < |a|
        ensures Shows(a[i], b[i], many)
      {
        ShowsMore(a[i], b[i], few, many);
      }
    case (Obj(o), JObject(m)) =>
      forall k | k in m
        ensures Shows(o.fields[k], m[k], many)
      {
        ShowsMore(o.fields[k], m[k], few, many);
      }
    case _ =>
  }

  method NewAddress(host: string, port: int) returns (tcp: Node, ghost made: set<Node>)
    ensures fresh(made) && Shows(Obj(tcp), SocketAddress(host, port), made)
  {
    var inner := new Node([], map["address" := Str(host), "port_value" := Number(port as real)]);
    tcp := new Node([], map["socket_address" := Obj(inner)]);
    made := {inner, tcp};
  }

  method ReplacePipes(root: Node, host: string, port: int, ghost d: Document)
    returns (found: bool, ghost objects: set<Node>)
    requires IsTree(d) && Placed(Obj(root), [], d) && Fresh(d)
    modifies d.heap.Keys
    ensures !found ==> Fresh(d)
    ensures found <==> PipeIn(Decoded(root, d))
    ensures objects >= d.heap.Keys && fresh(objects - d.heap.Keys)
    ensures Shows(Obj(root), Rewrite(Decoded(root, d), SocketAddress(host, port)), objects)
  {
    ghost var t := SocketAddress(host, port);
    NoHits(Obj(root), [], d, t, JNull);
    var tcp, made := NewAddress(host, port);
    ghost var now;
    found, now := VisitRoot(root, tcp, d, t);
    objects := d.heap.Keys + made;
    ShowsMore(Obj(tcp), t, made, objects);
    ViewShows(Obj(root), [], d, now, tcp, t, objects);
  }

  // ----- Every JSON document can be decoded like this -----

  ghost predicate Within(d: Document, e: Document) {
    d.depth <= e.depth && forall o :: o in d.heap ==> o in e.heap && e.heap[o] == d.heap[o]
  }

  lemma {:induction false} PlacedMore(v: Value, loc: Path, d: Document, e: Document)
    requires Placed(v, loc, d) && Within(d, e)
    ensures Placed(v, loc, e)
    decreases v
  {
    if v.Arr? {
      forall i | 0 <= i < |v.elems|
        ensures Placed(v.elems[i], loc + [Index(i)], e)
      {
        PlacedMore(v.elems[i], loc + [Index(i)], d, e);
      }
    }
  }

  lemma {:induction false} ViewMore(v: Value, loc: Path, d: Document, e: Document)
    requires IsTree(d) && IsTree(e) && Placed(v, loc, d) && Placed(v, loc, e) && Within(d, e)
    ensures View(v, loc, e, {}, JNull) == View(v, loc, d, {}, JNull)
    decreases Room(loc, d), v
  {
    match v
    case Arr(elems) =>
      forall i | 0 <= i < |elems|
        ensures View(elems[i], loc + [Index(i)], e, {}, JNull) == View(elems[i], loc + [Index(i)], d, {}, JNull)
      {
        ViewMore(elems[i], loc + [Index(i)], d, e);
      }
      assert View(v, loc, e, {}, JNull).elems == View(v, loc, d, {}, JNull).elems;
    case Obj(o) =>
      forall k | k in d.heap[o]
        ensures View(d.heap[o][k], loc + [Key(k)], e, {}, JNull) == View(d.heap[o][k], loc + [Key(k)], d, {}, JNull)
      {
        ViewMore(d.heap[o][k], loc + [Key(k)], d, e);
      }
      assert View(v, loc, e, {}, JNull).fields == View(v, loc, d, {}, JNull).fields;
    case _ =>
  }

  ghost function Joined(d: Document, e: Document): Document {
    Document(d.heap + e.heap, if d.depth > e.depth then d.depth else e.depth)
  }

  lemma JoinedTree(d: Document, e: Document)
    requires IsTree(d) && IsTree(e) && d.heap.Keys !! e.heap.Keys
    ensures IsTree(Joined(d, e)) && Within(d, Joined(d, e)) && Within(e, Joined(d, e))
  {
    var j := Joined(d, e);
    forall o, k | o in j.heap && k in j.heap[o]
      ensures Placed(j.heap[o][k], o.loc + [Key(k)], j)
    {
      PlacedMore(j.heap[o][k], o.loc + [Key(k)], if o in e.heap then e else d, j);
    }
  }

  /** A value decoded in its place. */
  ghost predicate Decodes(v: Value, loc: Path, d: Document, j: Json) {
    IsTree(d) && Placed(v, loc, d) && View(v, loc, d, {}, JNull) == j
  }

  lemma DecodesMore(v: Value, loc: Path, d: Document, e: Document, j: Json)
    requires Decodes(v, loc, d, j) && IsTree(e) && Within(d, e)
    ensures Decodes(v, loc, e, j)
  {
    PlacedMore(v, loc, d, e);
    ViewMore(v, loc, d, e);
  }

  ghost function WithObject(d: Document, o: Node, m: map<string, Value>): Document {
    Document(d.heap[o := m], if d.depth > |o.loc| then d.depth else |o.loc|)
  }

  lemma ObjectDecodes(d: Document, o: Node, m: map<string, Value>, fields: map<string, Json>)
    requires IsTree(d) && o !in d.heap && m.Keys == fields.Keys
    requires forall k :: k in m ==> Decodes(m[k], o.loc + [Key(k)], d, fields[k])
    ensures Decodes(Obj(o), o.loc, WithObject(d, o, m), JObject(fields))
  {
    var e := WithObject(d, o, m);
    forall p, k | p in e.heap && k in e.heap[p]
      ensures Placed(e.heap[p][k], p.loc + [Key(k)], e)
    {
      PlacedMore(e.heap[p][k], p.loc + [Key(k)], d, e);
    }
    forall k | k in m
      ensures View(m[k], o.loc + [Key(k)], e, {}, JNull) == fields[k]
    {
      ViewMore(m[k], o.loc + [Key(k)], d, e);
    }
    assert View(Obj(o), o.loc, e, {}, JNull).fields == fields;
  }

  method Decode(j: Json, ghost loc: Path) returns (v: Value, ghost d: Document)
    ensures Decodes(v, loc, d, j) && Fresh(d) && fresh(d.heap.Keys)
    decreases j, 1
  {
    d := Document(map[], 0);
    match j
    case JNull => v := Null;
    case JBool(b) => v := Bool(b);
    case JNumber(x) => v := Number(x);
    case JString(s) => v := Str(s);
    case JArray(elems) => v, d := DecodeArray(elems, loc, j);
    case JObject(fields) => v, d := DecodeObject(fields, loc, j);
  }

  method DecodeArray(elems: seq<Json>, ghost loc: Path, ghost j: Json) returns (v: Value, ghost d: Document)
    requires j == JArray(elems)
    ensures Decodes(v, loc, d, j) && Fresh(d) && fresh(d.heap.Keys)
    decreases j, 0
  {
    var vs: seq<Value> := [];
    d := Document(map[], 0);
    for i := 0 to |elems|
      invariant |vs| == i && IsTree(d) && Fresh(d) && fresh(d.heap.Keys)
      invariant forall k :: 0 <= k < i ==> Decodes(vs[k], loc + [Index(k)], d, elems[k])
    {
      var x, e := Decode(elems[i], loc + [Index(i)]);
      JoinedTree(d, e);
      forall k | 0 <= k < i ensures Decodes(vs[k], loc + [Index(k)], Joined(d, e), elems[k]) {
        DecodesMore(vs[k], loc + [Index(k)], d, Joined(d, e), elems[k]);
      }
      DecodesMore(x, loc + [Index(i)], e, Joined(d, e), elems[i]);
      vs, d := vs + [x], Joined(d, e);
    }
    v := Arr(vs);
    assert View(v, loc, d, {}, JNull).elems == elems;
  }

  method DecodeObject(fields: map<string, Json>, ghost loc: Path, ghost j: Json) returns (v: Value, ghost d: Document)
    requires j == JObject(fields)
    ensures Decodes(v, loc, d, j) && Fresh(d) && fresh(d.heap.Keys)
    decreases j, 0
  {
    var m: map<string, Value> := map[];
    var keys := fields.Keys;
    d := Document(map[], 0);
    while keys != {}
      invariant keys <= fields.Keys && m.Keys == fields.Keys - keys
      invariant IsTree(d) && Fresh(d) && fresh(d.heap.Keys)
      invariant forall k :: k in m ==> Decodes(m[k], loc + [Key(k)], d, fields[k])
    {
      var k :| k in keys;
      var x, e := Decode(fields[k], loc + [Key(k)]);
      JoinedTree(d, e);
      forall l | l in m ensures Decodes(m[l], loc + [Key(l)], Joined(d, e), fields[l]) {
        DecodesMore(m[l], loc + [Key(l)], d, Joined(d, e), fields[l]);
      }
      DecodesMore(x, loc + [Key(k)], e, Joined(d, e), fields[k]);
      m, d, keys := m[k := x], Joined(d, e), keys - {k};
    }
    var o := new Node(loc, m);
    ObjectDecodes(d, o, m, fields);
    v, d := Obj(o), WithObject(d, o, m);
  }

  // ----- The bootstrap file -----

  datatype Outcome = Unparsed | BadAddress | LeftAlone | Written | WriteFailed

  predicate Parses(text: Option<Json>) {
    text.Some? && (text.value.JObject? || text.value.JNull?)
  }

  /** `text` is what the file holds, if it can be read as JSON; `address` the host and port of the
      Consul address, if it has a valid form; and `writable` says whether the file can be written. `out`
      is what is written, which shows as the document `now`. */
  method RewriteEnvoyBootstrap(text: Option<Json>, address: Option<(string, int)>, writable: bool)
    returns (outcome: Outcome, out: Option<Value>, ghost now: Json, ghost objects: set<Node>)
    ensures outcome == Unparsed <==> !Parses(text)
    ensures outcome == BadAddress <==> Parses(text) && address.None?
    ensures outcome == LeftAlone <==> Parses(text) && address.Some? && !PipeIn(text.value)
    ensures outcome == Written <==> Parses(text) && address.Some? && PipeIn(text.value) && writable
    ensures out.Some? <==> outcome == Written
    ensures outcome == Written ==>
              Shows(out.value, now, objects) && Redirected(text.value, now, address.value.0, address.value.1)
  {
    out, now, objects := None, JNull, {};
    if !Parses(text) {
      return Unparsed, out, now, objects;
    }
    if address.None? {
      return BadAddress, out, now, objects;
    }
    outcome := LeftAlone;
    if text.value.JObject? {
      var v, d := Decode(text.value, []);
      var found;
      found, objects := ReplacePipes(v.ref, address.value.0, address.value.1, d);
      if found {
        RewriteRedirects(text.value, address.value.0, address.value.1);
        now := Rewrite(text.value, SocketAddress(address.value.0, address.value.1));
        outcome, out := if writable then Written else WriteFailed, if writable then Some(v) else None;
      }
    }
  }
}
