/** What rewriting an Envoy bootstrap means, on JSON trees. */
module Envoy {
  import opened Tasks

  datatype Json =
    | JNull
    | JBool(bool)
    | JNumber(real)
    | JString(string)
    | JArray(elems: seq<Json>)
    | JObject(fields: map<string, Json>)

  type Fields = map<string, Json>

  /** The TCP address that takes the place of a pipe. */
  function SocketAddress(host: string, port: int): Json {
    JObject(map["socket_address" := JObject(map["address" := JString(host), "port_value" := JNumber(port as real)])])
  }

  // ----- The selected path -----

  predicate IsObject(m: Fields, k: string) {
    k in m && m[k].JObject?
  }

  predicate IsArray(m: Fields, k: string) {
    k in m && m[k].JArray?
  }

  /** Both spellings of a key are accepted; the first that holds the wanted kind of value wins. */
  function AssignmentKey(m: Fields): Option<string> {
    if IsObject(m, "load_assignment") then Some("load_assignment")
    else if IsObject(m, "loadAssignment") then Some("loadAssignment")
    else None
  }

  function LbKey(m: Fields): Option<string> {
    if IsArray(m, "lb_endpoints") then Some("lb_endpoints")
    else if IsArray(m, "lbEndpoints") then Some("lbEndpoints")
    else None
  }

  predicate HasPipe(endpoint: Fields) {
    IsObject(endpoint, "address") && "pipe" in endpoint["address"].fields
  }

  predicate HasEndpoint(v: Json) {
    v.JObject? && IsObject(v.fields, "endpoint")
  }

  predicate HasLb(v: Json) {
    v.JObject? && LbKey(v.fields).Some?
  }

  predicate HasEndpoints(v: Json) {
    && v.JObject? && "name" in v.fields && v.fields["name"] == JString("local_agent")
    && AssignmentKey(v.fields).Some? && IsArray(v.fields[AssignmentKey(v.fields).value].fields, "endpoints")
  }

  predicate HasClusters(v: Json) {
    v.JObject? && IsObject(v.fields, "static_resources") && IsArray(v.fields["static_resources"].fields, "clusters")
  }

  function LbOf(v: Json): seq<Json>
    requires HasLb(v)
  {
    v.fields[LbKey(v.fields).value].elems
  }

  function EndpointsOf(v: Json): seq<Json>
    requires HasEndpoints(v)
  {
    v.fields[AssignmentKey(v.fields).value].fields["endpoints"].elems
  }

  function ClustersOf(v: Json): seq<Json>
    requires HasClusters(v)
  {
    v.fields["static_resources"].fields["clusters"].elems
  }

  // ----- The rewriting -----

  function RewriteLb(v: Json, tcp: Json): Json {
    if HasEndpoint(v) && HasPipe(v.fields["endpoint"].fields) then
      JObject(v.fields["endpoint" := JObject(v.fields["endpoint"].fields["address" := tcp])])
    else v
  }

  function RewriteEndpoint(v: Json, tcp: Json): Json {
    if HasLb(v) then
      var lb := LbOf(v);
      JObject(v.fields[LbKey(v.fields).value := JArray(seq(|lb|, i requires 0 <= i < |lb| => RewriteLb(lb[i], tcp)))])
    else v
  }

  function RewriteCluster(v: Json, tcp: Json): Json {
    if HasEndpoints(v) then
      var k, es := AssignmentKey(v.fields).value, EndpointsOf(v);
      JObject(v.fields[k := JObject(v.fields[k].fields["endpoints" :=
        JArray(seq(|es|, i requires 0 <= i < |es| => RewriteEndpoint(es[i], tcp)))])])
    else v
  }

  function Rewrite(v: Json, tcp: Json): Json {
    if HasClusters(v) then
      var cs := ClustersOf(v);
      JObject(v.fields["static_resources" := JObject(v.fields["static_resources"].fields["clusters" :=
        JArray(seq(|cs|, i requires 0 <= i < |cs| => RewriteCluster(cs[i], tcp)))])])
    else v
  }

  // ----- Pipes on the selected path -----

  predicate PipeInLb(v: Json) {
    HasEndpoint(v) && HasPipe(v.fields["endpoint"].fields)
  }

  predicate PipeInEndpoint(v: Json) {
    HasLb(v) && exists i :: 0 <= i < |LbOf(v)| && PipeInLb(LbOf(v)[i])
  }

  predicate PipeInCluster(v: Json) {
    HasEndpoints(v) && exists i :: 0 <= i < |EndpointsOf(v)| && PipeInEndpoint(EndpointsOf(v)[i])
  }

  predicate PipeIn(v: Json) {
    HasClusters(v) && exists i :: 0 <= i < |ClustersOf(v)| && PipeInCluster(ClustersOf(v)[i])
  }

  predicate NoPipe(tcp: Json) {
    tcp.JObject? ==> "pipe" !in tcp.fields
  }

  // ----- No selected endpoint keeps a pipe -----

  lemma NoneLeftInLb(v: Json, tcp: Json)
    requires NoPipe(tcp)
    ensures !PipeInLb(RewriteLb(v, tcp))
  {
  }

  lemma NoneLeftInEndpoint(v: Json, tcp: Json)
    requires NoPipe(tcp)
    ensures !PipeInEndpoint(RewriteEndpoint(v, tcp))
  {
    if HasLb(v) {
      var lb, w := LbOf(v), RewriteEndpoint(v, tcp);
      assert LbKey(w.fields) == LbKey(v.fields);
      forall i | 0 <= i < |lb|
        ensures !PipeInLb(LbOf(w)[i])
      {
        NoneLeftInLb(lb[i], tcp);
      }
    }
  }

  lemma NoneLeftInCluster(v: Json, tcp: Json)
    requires NoPipe(tcp)
    ensures !PipeInCluster(RewriteCluster(v, tcp))
  {
    if HasEndpoints(v) {
      var es, w := EndpointsOf(v), RewriteCluster(v, tcp);
      assert AssignmentKey(w.fields) == AssignmentKey(v.fields);
      forall i | 0 <= i < |es|
        ensures !PipeInEndpoint(EndpointsOf(w)[i])
      {
        NoneLeftInEndpoint(es[i], tcp);
      }
    }
  }

  /** After rewriting, no endpoint on the selected path of any cluster keeps a pipe. */
  lemma NoneLeft(v: Json, tcp: Json)
    requires NoPipe(tcp)
    ensures !PipeIn(Rewrite(v, tcp))
  {
    if HasClusters(v) {
      var cs, w := ClustersOf(v), Rewrite(v, tcp);
      forall i | 0 <= i < |cs|
        ensures !PipeInCluster(ClustersOf(w)[i])
      {
        NoneLeftInCluster(cs[i], tcp);
      }
    }
  }

  // ----- Without a pipe nothing changes -----

  lemma EndpointUntouched(v: Json, tcp: Json)
    requires !PipeInEndpoint(v)
    ensures RewriteEndpoint(v, tcp) == v
  {
    if HasLb(v) {
      var lb := LbOf(v);
      forall i | 0 <= i < |lb|
        ensures RewriteLb(lb[i], tcp) == lb[i]
      {
        assert !PipeInLb(lb[i]);
      }
      assert seq(|lb|, i requires 0 <= i < |lb| => RewriteLb(lb[i], tcp)) == lb;
    }
  }

  lemma ClusterUntouched(v: Json, tcp: Json)
    requires !PipeInCluster(v)
    ensures RewriteCluster(v, tcp) == v
  {
    if HasEndpoints(v) {
      var k, es := AssignmentKey(v.fields).value, EndpointsOf(v);
      forall i | 0 <= i < |es|
        ensures RewriteEndpoint(es[i], tcp) == es[i]
      {
        EndpointUntouched(es[i], tcp);
      }
      assert seq(|es|, i requires 0 <= i < |es| => RewriteEndpoint(es[i], tcp)) == es;
      assert v.fields[k].fields["endpoints" := JArray(es)] == v.fields[k].fields;
    }
  }

  lemma Untouched(v: Json, tcp: Json)
    requires !PipeIn(v)
    ensures Rewrite(v, tcp) == v
  {
    if HasClusters(v) {
      var sr, cs := v.fields["static_resources"], ClustersOf(v);
      forall i | 0 <= i < |cs|
        ensures RewriteCluster(cs[i], tcp) == cs[i]
      {
        ClusterUntouched(cs[i], tcp);
      }
      assert seq(|cs|, i requires 0 <= i < |cs| => RewriteCluster(cs[i], tcp)) == cs;
      assert sr.fields["clusters" := JArray(cs)] == sr.fields;
    }
  }

  /** The bootstrap changes exactly when there is a pipe to replace. */
  lemma ChangedIffPipe(v: Json, tcp: Json)
    requires NoPipe(tcp)
    ensures Rewrite(v, tcp) != v <==> PipeIn(v)
  {
    NoneLeft(v, tcp);
    if !PipeIn(v) {
      Untouched(v, tcp);
    }
  }

  /** Rewriting again, with any address, changes nothing. */
  lemma RewriteTwice(v: Json, first: Json, second: Json)
    requires NoPipe(first)
    ensures Rewrite(Rewrite(v, first), second) == Rewrite(v, first)
  {
    NoneLeft(v, first);
    Untouched(Rewrite(v, first), second);
  }

  // ----- Every other value is preserved -----

  datatype Step = Key(name: string) | Index(i: nat)

  type Path = seq<Step>

  /** The value a path leads to. */
  function At(v: Json, p: Path): Option<Json>
    decreases |p|
  {
    if p == [] then Some(v)
    else
      match (v, p[0])
      case (JObject(fields), Key(k)) => if k in fields then At(fields[k], p[1..]) else None
      case (JArray(elems), Index(i)) => if i < |elems| then At(elems[i], p[1..]) else None
      case _ => None
  }

  /** A value without what lies below it: a scalar, the length of an array, the keys of an object.
      By OutlinesDetermine, a value is determined by the outlines at all its paths. */
  datatype Outline = Scalar(value: Json) | ArrayOf(length: nat) | ObjectOf(keys: set<string>)

  function OutlineOf(v: Json): Outline {
    match v
    case JArray(elems) => ArrayOf(|elems|)
    case JObject(fields) => ObjectOf(fields.Keys)
    case _ => Scalar(v)
  }

  function OutlineAt(v: Json, p: Path): Option<Outline> {
    var x := At(v, p);
    if x.Some? then Some(OutlineOf(x.value)) else None
  }

  lemma {:induction false} OutlinesDetermine(a: Json, b: Json)
    requires forall p :: OutlineAt(a, p) == OutlineAt(b, p)
    ensures a == b
  {
    assert OutlineAt(a, []) == OutlineAt(b, []);
    if a.JObject? {
      forall k | k in a.fields
        ensures a.fields[k] == b.fields[k]
      {
        forall p ensures OutlineAt(a.fields[k], p) == OutlineAt(b.fields[k], p) {
          assert ([Key(k)] + p)[1..] == p;
          assert OutlineAt(a, [Key(k)] + p) == OutlineAt(b, [Key(k)] + p);
        }
        OutlinesDetermine(a.fields[k], b.fields[k]);
      }
    } else if a.JArray? {
      forall i | 0 <= i < |a.elems|
        ensures a.elems[i] == b.elems[i]
      {
        forall p ensures OutlineAt(a.elems[i], p) == OutlineAt(b.elems[i], p) {
          assert ([Index(i)] + p)[1..] == p;
          assert OutlineAt(a, [Index(i)] + p) == OutlineAt(b, [Index(i)] + p);
        }
        OutlinesDetermine(a.elems[i], b.elems[i]);
      }
    }
  }

  /** Paths to a replaced address and to what lies below it, by level. */
  predicate IntoLb(v: Json, p: Path) {
    PipeInLb(v) && |p| >= 2 && p[0] == Key("endpoint") && p[1] == Key("address")
  }

  predicate IntoEndpoint(v: Json, p: Path) {
    && HasLb(v) && |p| >= 2 && p[0] == Key(LbKey(v.fields).value)
    && p[1].Index? && p[1].i < |LbOf(v)| && IntoLb(LbOf(v)[p[1].i], p[2..])
  }

  predicate IntoCluster(v: Json, p: Path) {
    && HasEndpoints(v) && |p| >= 3 && p[0] == Key(AssignmentKey(v.fields).value) && p[1] == Key("endpoints")
    && p[2].Index? && p[2].i < |EndpointsOf(v)| && IntoEndpoint(EndpointsOf(v)[p[2].i], p[3..])
  }

  predicate IntoPipe(v: Json, p: Path) {
    && HasClusters(v) && |p| >= 3 && p[0] == Key("static_resources") && p[1] == Key("clusters")
    && p[2].Index? && p[2].i < |ClustersOf(v)| && IntoCluster(ClustersOf(v)[p[2].i], p[3..])
  }

  const ADDRESS_DEPTH := 10

  lemma KeyPaths(m: Fields, k: string, x: Json, p: Path)
    requires k in m
    ensures p != [] && p[0] == Key(k) ==>
              At(JObject(m[k := x]), p) == At(x, p[1..]) && At(JObject(m), p) == At(m[k], p[1..])
    ensures p == [] || p[0] != Key(k) ==> OutlineAt(JObject(m[k := x]), p) == OutlineAt(JObject(m), p)
  {
    assert m[k := x].Keys == m.Keys;
  }

  /** Replacing what is below two nested keys. */
  lemma KeysPaths(m: Fields, k: string, l: string, x: Json, p: Path)
    requires IsObject(m, k) && l in m[k].fields
    ensures var w := JObject(m[k := JObject(m[k].fields[l := x])]);
            if |p| >= 2 && p[0] == Key(k) && p[1] == Key(l) then At(w, p) == At(x, p[2..]) && At(JObject(m), p) == At(m[k].fields[l], p[2..])
            else OutlineAt(w, p) == OutlineAt(JObject(m), p)
  {
    KeyPaths(m, k, JObject(m[k].fields[l := x]), p);
    if p != [] {
      KeyPaths(m[k].fields, l, x, p[1..]);
      assert |p| >= 2 ==> p[1..][1..] == p[2..];
    }
  }

  predicate IndexInto(p: Path, length: nat) {
    p != [] && p[0].Index? && p[0].i < length
  }

  lemma ElemPaths(a: seq<Json>, b: seq<Json>, p: Path)
    requires |a| == |b|
    ensures IndexInto(p, |a|) ==> At(JArray(a), p) == At(a[p[0].i], p[1..]) && At(JArray(b), p) == At(b[p[0].i], p[1..])
    ensures !IndexInto(p, |a|) ==> OutlineAt(JArray(a), p) == OutlineAt(JArray(b), p)
  {
  }

  lemma {:induction false} LbPaths(v: Json, tcp: Json, p: Path)
    ensures !IntoLb(v, p) ==> OutlineAt(RewriteLb(v, tcp), p) == OutlineAt(v, p)
    ensures IntoLb(v, p) ==> At(RewriteLb(v, tcp), p) == At(tcp, p[2..])
  {
    if PipeInLb(v) {
      KeysPaths(v.fields, "endpoint", "address", tcp, p);
    }
  }

  lemma {:induction false} EndpointPaths(v: Json, tcp: Json, p: Path)
    ensures !IntoEndpoint(v, p) ==> OutlineAt(RewriteEndpoint(v, tcp), p) == OutlineAt(v, p)
    ensures IntoEndpoint(v, p) ==> |p| >= 4 && At(RewriteEndpoint(v, tcp), p) == At(tcp, p[4..])
  {
    if HasLb(v) {
      var k, a, b := LbKey(v.fields).value, LbOf(v), LbOf(RewriteEndpoint(v, tcp));
      KeyPaths(v.fields, k, JArray(b), p);
      if p != [] && p[0] == Key(k) {
        ElemPaths(a, b, p[1..]);
        if IndexInto(p[1..], |a|) {
          assert p[1..][1..] == p[2..];
          LbPaths(a[p[1].i], tcp, p[2..]);
          assert |p| >= 4 ==> p[2..][2..] == p[4..];
        }
      }
    }
  }

  lemma {:induction false} ClusterPaths(v: Json, tcp: Json, p: Path)
    ensures !IntoCluster(v, p) ==> OutlineAt(RewriteCluster(v, tcp), p) == OutlineAt(v, p)
    ensures IntoCluster(v, p) ==> |p| >= 7 && At(RewriteCluster(v, tcp), p) == At(tcp, p[7..])
  {
    if HasEndpoints(v) {
      var k, a := AssignmentKey(v.fields).value, EndpointsOf(v);
      var b := RewriteCluster(v, tcp).fields[k].fields["endpoints"].elems;
      KeysPaths(v.fields, k, "endpoints", JArray(b), p);
      if |p| >= 2 && p[0] == Key(k) && p[1] == Key("endpoints") {
        ElemPaths(a, b, p[2..]);
        if IndexInto(p[2..], |a|) {
          assert p[2..][1..] == p[3..];
          EndpointPaths(a[p[2].i], tcp, p[3..]);
          assert |p| >= 7 ==> p[3..][4..] == p[7..];
        }
      }
    }
  }

  /** At every path that does not lead into a pipe address on the selected path the document has the
      outline it had; at every path that does, it has what the TCP address has there. */
  lemma {:induction false} OnlyPipesReplaced(v: Json, tcp: Json, p: Path)
    ensures !IntoPipe(v, p) ==> OutlineAt(Rewrite(v, tcp), p) == OutlineAt(v, p)
    ensures IntoPipe(v, p) ==> |p| >= ADDRESS_DEPTH && At(Rewrite(v, tcp), p) == At(tcp, p[ADDRESS_DEPTH..])
  {
    if HasClusters(v) {
      var a := ClustersOf(v);
      var b := Rewrite(v, tcp).fields["static_resources"].fields["clusters"].elems;
      KeysPaths(v.fields, "static_resources", "clusters", JArray(b), p);
      if |p| >= 2 && p[0] == Key("static_resources") && p[1] == Key("clusters") {
        ElemPaths(a, b, p[2..]);
        if IndexInto(p[2..], |a|) {
          assert p[2..][1..] == p[3..];
          ClusterPaths(a[p[2].i], tcp, p[3..]);
          assert |p| >= 10 ==> p[3..][7..] == p[10..];
        }
      }
    }
  }

  // ----- Which pipes are selected -----

  predicate ObjectAt(v: Json, p: Path) {
    At(v, p).Some? && At(v, p).value.JObject?
  }

  predicate ArrayAt(v: Json, p: Path) {
    At(v, p).Some? && At(v, p).value.JArray?
  }

  /** A path to the address of an endpoint that has a pipe. */
  predicate LbPath(v: Json, p: Path) {
    p == [Key("endpoint"), Key("address")] && At(v, p + [Key("pipe")]).Some?
  }

  /** The first spelling wins if it holds an array. */
  predicate EndpointPath(v: Json, p: Path) {
    && |p| == 4
    && (p[0] == Key("lb_endpoints") || (p[0] == Key("lbEndpoints") && !ArrayAt(v, [Key("lb_endpoints")])))
    && p[1].Index? && p[2] == Key("endpoint") && p[3] == Key("address")
    && At(v, p + [Key("pipe")]).Some?
  }

  predicate ClusterPath(v: Json, p: Path) {
    && |p| == 7 && At(v, [Key("name")]) == Some(JString("local_agent"))
    && (p[0] == Key("load_assignment") || (p[0] == Key("loadAssignment") && !ObjectAt(v, [Key("load_assignment")])))
    && p[1] == Key("endpoints") && p[2].Index?
    && At(v, p[..3]).Some? && EndpointPath(At(v, p[..3]).value, p[3..])
  }

  /** A path to the address of a selected endpoint that has a pipe, in the words of the bootstrap file. */
  predicate PipePath(v: Json, p: Path) {
    && |p| == 10 && p[0] == Key("static_resources") && p[1] == Key("clusters") && p[2].Index?
    && At(v, p[..3]).Some? && ClusterPath(At(v, p[..3]).value, p[3..])
  }

  lemma {:induction false} AtFirst(v: Json, s: Step, q: Path)
    ensures At(v, [s] + q) ==
            if v.JObject? && s.Key? && s.name in v.fields then At(v.fields[s.name], q)
            else if v.JArray? && s.Index? && s.i < |v.elems| then At(v.elems[s.i], q)
            else None
  {
    assert ([s] + q)[1..] == q;
  }

  lemma {:induction false} AtTwoKeys(v: Json, k: string, l: string, q: Path)
    ensures At(v, [Key(k), Key(l)] + q) ==
            if v.JObject? && IsObject(v.fields, k) && l in v.fields[k].fields then At(v.fields[k].fields[l], q)
            else None
  {
    assert [Key(k), Key(l)] + q == [Key(k)] + ([Key(l)] + q);
    AtFirst(v, Key(k), [Key(l)] + q);
    if v.JObject? && k in v.fields {
      AtFirst(v.fields[k], Key(l), q);
    }
  }

  lemma {:induction false} AtElement(v: Json, k: string, i: nat, q: Path)
    ensures At(v, [Key(k), Index(i)] + q) ==
            if v.JObject? && IsArray(v.fields, k) && i < |v.fields[k].elems| then At(v.fields[k].elems[i], q)
            else None
  {
    assert [Key(k), Index(i)] + q == [Key(k)] + ([Index(i)] + q);
    AtFirst(v, Key(k), [Index(i)] + q);
    if v.JObject? && k in v.fields {
      AtFirst(v.fields[k], Index(i), q);
    }
  }

  lemma {:induction false} AtListed(v: Json, k: string, l: string, i: nat)
    ensures At(v, [Key(k), Key(l), Index(i)]) ==
            if v.JObject? && IsObject(v.fields, k) && IsArray(v.fields[k].fields, l) && i < |v.fields[k].fields[l].elems|
            then Some(v.fields[k].fields[l].elems[i]) else None
  {
    assert [Key(k), Key(l), Index(i)] == [Key(k)] + ([Key(l), Index(i)] + []);
    AtFirst(v, Key(k), [Key(l), Index(i)] + []);
    if v.JObject? && k in v.fields {
      AtElement(v.fields[k], l, i, []);
    }
  }

  lemma {:induction false} AtKey(v: Json, k: string)
    ensures At(v, [Key(k)]) == if v.JObject? && k in v.fields then Some(v.fields[k]) else None
  {
    assert [Key(k)] + [] == [Key(k)];
    AtFirst(v, Key(k), []);
  }

  lemma {:induction false} LbIff(v: Json, p: Path)
    requires |p| == 2
    ensures IntoLb(v, p) <==> LbPath(v, p)
  {
    if p == [Key("endpoint"), Key("address")] {
      AtTwoKeys(v, "endpoint", "address", [Key("pipe")]);
      if HasEndpoint(v) && "address" in v.fields["endpoint"].fields {
        AtKey(v.fields["endpoint"].fields["address"], "pipe");
      }
    } else {
      assert p == [p[0], p[1]];
    }
  }

  lemma {:induction false} EndpointIff(v: Json, p: Path)
    requires |p| == 4
    ensures IntoEndpoint(v, p) <==> EndpointPath(v, p)
  {
    AtKey(v, "lb_endpoints");
    if p[0].Key? && p[1].Index? {
      AtElement(v, p[0].name, p[1].i, p[2..] + [Key("pipe")]);
      assert [p[0], p[1]] + (p[2..] + [Key("pipe")]) == p + [Key("pipe")];
      assert p[2..] == [p[2], p[3]];
      if HasLb(v) && p[0] == Key(LbKey(v.fields).value) && p[1].i < |LbOf(v)| {
        LbIff(LbOf(v)[p[1].i], p[2..]);
      }
    }
  }

  lemma {:induction false} ClusterIff(v: Json, p: Path)
    requires |p| == 7
    ensures IntoCluster(v, p) <==> ClusterPath(v, p)
  {
    AtKey(v, "name");
    AtKey(v, "load_assignment");
    if p[0].Key? && p[1] == Key("endpoints") && p[2].Index? {
      AtListed(v, p[0].name, "endpoints", p[2].i);
      assert p[..3] == [p[0], p[1], p[2]];
      if HasEndpoints(v) && p[0] == Key(AssignmentKey(v.fields).value) && p[2].i < |EndpointsOf(v)| {
        EndpointIff(EndpointsOf(v)[p[2].i], p[3..]);
      }
    }
  }

  /** The paths at which the rewriting replaces an address are those. */
  lemma {:induction false} SelectedPipes(v: Json, p: Path)
    requires |p| == ADDRESS_DEPTH
    ensures IntoPipe(v, p) <==> PipePath(v, p)
  {
    if p[0] == Key("static_resources") && p[1] == Key("clusters") && p[2].Index? {
      AtListed(v, "static_resources", "clusters", p[2].i);
      assert p[..3] == [p[0], p[1], p[2]];
      if HasClusters(v) && p[2].i < |ClustersOf(v)| {
        ClusterIff(ClustersOf(v)[p[2].i], p[3..]);
      }
    }
  }

  // ----- What takes their place -----

  /** What the new document `w` is to the old one `v`, path by path: outside the pipe addresses on the
      selected path it has the outlines it had, and each of these addresses is an object with nothing in
      it but a socket address, which has `host`, `port` and nothing else. */
  ghost predicate Redirected(v: Json, w: Json, host: string, port: int) {
    && (forall p :: !IntoPipe(v, p) ==> OutlineAt(w, p) == OutlineAt(v, p))
    && (forall p :: PipePath(v, p) ==> HoldsTcp(w, p, host, port))
  }

  predicate HoldsTcp(w: Json, p: Path, host: string, port: int) {
    && OutlineAt(w, p) == Some(ObjectOf({"socket_address"}))
    && OutlineAt(w, p + [Key("socket_address")]) == Some(ObjectOf({"address", "port_value"}))
    && At(w, p + [Key("socket_address"), Key("address")]) == Some(JString(host))
    && At(w, p + [Key("socket_address"), Key("port_value")]) == Some(JNumber(port as real))
  }

  /** A path goes into an address if a beginning of it does. */
  lemma {:induction false} IntoPipeBelow(v: Json, p: Path, q: Path)
    requires IntoPipe(v, p)
    ensures IntoPipe(v, p + q) && |p| >= ADDRESS_DEPTH
  {
    OnlyPipesReplaced(v, JNull, p);
    assert (p + q)[3..] == p[3..] + q;
    var c := ClustersOf(v)[p[2].i];
    assert (p[3..] + q)[3..] == p[3..][3..] + q;
    var e := EndpointsOf(c)[p[3..][2].i];
    assert (p[3..][3..] + q)[2..] == p[3..][3..][2..] + q;
  }

  lemma {:induction false} TcpBelow(v: Json, tcp: Json, p: Path, q: Path)
    requires IntoPipe(v, p) && |p| == ADDRESS_DEPTH
    ensures At(Rewrite(v, tcp), p + q) == At(tcp, q)
  {
    IntoPipeBelow(v, p, q);
    OnlyPipesReplaced(v, tcp, p + q);
    assert (p + q)[ADDRESS_DEPTH..] == q;
  }

  lemma {:induction false} TcpHolds(v: Json, host: string, port: int, p: Path)
    requires IntoPipe(v, p) && |p| == ADDRESS_DEPTH
    ensures HoldsTcp(Rewrite(v, SocketAddress(host, port)), p, host, port)
  {
    var tcp := SocketAddress(host, port);
    assert p + [] == p;
    TcpBelow(v, tcp, p, []);
    TcpBelow(v, tcp, p, [Key("socket_address")]);
    TcpBelow(v, tcp, p, [Key("socket_address"), Key("address")]);
    TcpBelow(v, tcp, p, [Key("socket_address"), Key("port_value")]);
    var inner := tcp.fields["socket_address"];
    assert At(tcp, [Key("socket_address")]) == Some(inner) && inner.fields.Keys == {"address", "port_value"};
    AtTwoKeys(tcp, "socket_address", "address", []);
    AtTwoKeys(tcp, "socket_address", "port_value", []);
    assert forall k :: [Key("socket_address"), Key(k)] + [] == [Key("socket_address"), Key(k)];
    assert tcp.fields.Keys == {"socket_address"};
  }

  /** The rewriting redirects every pipe on the selected path to `host` and `port`. */
  lemma {:induction false} RewriteRedirects(v: Json, host: string, port: int)
    ensures Redirected(v, Rewrite(v, SocketAddress(host, port)), host, port)
  {
    var w := Rewrite(v, SocketAddress(host, port));
    forall p | !IntoPipe(v, p)
      ensures OutlineAt(w, p) == OutlineAt(v, p)
    {
      OnlyPipesReplaced(v, SocketAddress(host, port), p);
    }
    forall p | PipePath(v, p)
      ensures HoldsTcp(w, p, host, port)
    {
      SelectedPipes(v, p);
      TcpHolds(v, host, port, p);
    }
  }
}
