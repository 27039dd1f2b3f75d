/**
  The walk over `paths → method → operation` that both public-endpoint detectors perform:
  the operations it meets in document order, the filter that keeps some of them, and the
  `(METHOD, path)` pairs it reports.
  */
module Walk {
  import opened Text
  import opened Json

  /** An operation met in the walk: its method key as written, its path, its Operation Object. */
  datatype Op = Op(verb: string, path: string, operation: Json)

  /** The pair `(method.upper(), path)` a detector reports. */
  datatype Endpoint = Endpoint(verb: string, path: string)

  /** The seven HTTP methods the detectors recognise as operation keys. */
  const Verbs: set<string> := {"get", "post", "put", "delete", "patch", "options", "head"}

  const UpperVerbs: set<string> := {"GET", "POST", "PUT", "DELETE", "PATCH", "OPTIONS", "HEAD"}

  /** The operations of one Path Item whose method key `recognised` accepts, in document order. */
  function MethodOps(path: string, methods: seq<(string, Json)>, recognised: string -> bool): seq<Op> {
    if methods == [] then []
    else
      var last := methods[|methods| - 1];
      MethodOps(path, methods[..|methods| - 1], recognised) +
      (if recognised(last.0) then [Op(last.0, path, last.1)] else [])
  }

  /** The recognised operations of every Path Item, path by path, in document order. A Path Item
      that is not an object contributes nothing (the detectors raise on it before looking further). */
  function PathOps(paths: seq<(string, Json)>, recognised: string -> bool): seq<Op> {
    if paths == [] then []
    else
      var last := paths[|paths| - 1];
      PathOps(paths[..|paths| - 1], recognised) +
      (if last.1.JObj? then MethodOps(last.0, last.1.fields, recognised) else [])
  }

  /** A Path Item's walk holds exactly its entries with a recognised method key, with the item's path. */
  lemma {:induction false} MethodOpsMembers(path: string, methods: seq<(string, Json)>, recognised: string -> bool)
    ensures forall o :: o in MethodOps(path, methods, recognised) <==>
                        o.path == path && recognised(o.verb) && (o.verb, o.operation) in methods
  {
    if methods != [] {
      var init := methods[..|methods| - 1];
      MethodOpsMembers(path, init, recognised);
      assert methods == init + [methods[|methods| - 1]];
    }
  }

  /** Every operation of the walk has a recognised method key and a path key of the document. */
  lemma {:induction false} PathOpsMembers(paths: seq<(string, Json)>, recognised: string -> bool)
    ensures forall o :: o in PathOps(paths, recognised) ==> recognised(o.verb) && o.path in Keys(paths)
  {
    if paths != [] {
      var init := paths[..|paths| - 1];
      var last := paths[|paths| - 1];
      PathOpsMembers(init, recognised);
      if last.1.JObj? {
        MethodOpsMembers(last.0, last.1.fields, recognised);
      }
      assert Keys(paths) == Keys(init) + [last.0];
    }
  }

  /** An operation's own `security`, `None` when it has none. */
  function SecurityOf(o: Op): Json {
    if o.operation.JObj? then GetOr(o.operation.fields, "security", JNull) else JNull
  }

  /**
    The Path Items are all objects and, when `opsChecked`, so is every recognised operation:
    the shape the detectors need in order not to raise `AttributeError` on `.items()` or `.get`.
    */
  predicate Shaped(paths: seq<(string, Json)>, recognised: string -> bool, opsChecked: bool) {
    ItemsAreObjects(paths) && (opsChecked ==> OpsAreObjects(PathOps(paths, recognised)))
  }

  /** Every Path Item is an object. */
  predicate ItemsAreObjects(paths: seq<(string, Json)>) {
    paths == [] || (ItemsAreObjects(paths[..|paths| - 1]) && paths[|paths| - 1].1.JObj?)
  }

  /** Every operation is an object. */
  predicate OpsAreObjects(ops: seq<Op>) {
    ops == [] || (OpsAreObjects(ops[..|ops| - 1]) && ops[|ops| - 1].operation.JObj?)
  }

  lemma ItemsAreObjectsStep(paths: seq<(string, Json)>, i: nat)
    requires i < |paths|
    ensures ItemsAreObjects(paths[..i + 1]) <==> ItemsAreObjects(paths[..i]) && paths[i].1.JObj?
  {
    assert paths[..i + 1][..i] == paths[..i];
  }

  /** One Path Item that is not an object is enough to break the shape. */
  lemma {:induction false} ItemNotObject(paths: seq<(string, Json)>, i: nat)
    requires i < |paths| && !paths[i].1.JObj?
    ensures !ItemsAreObjects(paths)
  {
    if i < |paths| - 1 {
      ItemNotObject(paths[..|paths| - 1], i);
    }
  }

  /** One operation that is not an object is enough to break the shape. */
  lemma {:induction false} OpNotObject(ops: seq<Op>, o: Op)
    requires o in ops && !o.operation.JObj?
    ensures !OpsAreObjects(ops)
  {
    var init := ops[..|ops| - 1];
    if o != ops[|ops| - 1] {
      assert ops == init + [ops[|ops| - 1]];
      OpNotObject(init, o);
    }
  }

  lemma {:induction false} OpsAreObjectsAppend(a: seq<Op>, b: seq<Op>)
    ensures OpsAreObjects(a + b) <==> OpsAreObjects(a) && OpsAreObjects(b)
    decreases |b|
  {
    if b == [] {
      assert a + b == a;
    } else {
      var init := b[..|b| - 1];
      OpsAreObjectsAppend(a, init);
      assert (a + b)[..|a + b| - 1] == a + init;
    }
  }

  /** `a` is `b` with some elements left out, the rest kept in order. */
  predicate IsSubsequence<T(==)>(a: seq<T>, b: seq<T>)
    decreases |b|
  {
    a == [] ||
    (b != [] &&
     ((a[|a| - 1] == b[|b| - 1] && IsSubsequence(a[..|a| - 1], b[..|b| - 1])) ||
      IsSubsequence(a, b[..|b| - 1])))
  }

  /** The operations `keep` accepts, in their original order. */
  function Select(ops: seq<Op>, keep: Op -> bool): seq<Op> {
    if ops == [] then []
    else
      var last := ops[|ops| - 1];
      Select(ops[..|ops| - 1], keep) + (if keep(last) then [last] else [])
  }

  /** The selection holds exactly the operations of the walk that `keep` accepts. */
  lemma {:induction false} SelectMembers(ops: seq<Op>, keep: Op -> bool)
    ensures forall o :: o in Select(ops, keep) <==> o in ops && keep(o)
  {
    if ops != [] {
      var init := ops[..|ops| - 1];
      SelectMembers(init, keep);
      assert ops == init + [ops[|ops| - 1]];
    }
  }

  /** The selection keeps the order of the walk: it is a subsequence of it. */
  lemma {:induction false} SelectSubsequence(ops: seq<Op>, keep: Op -> bool)
    ensures IsSubsequence(Select(ops, keep), ops)
  {
    if ops != [] {
      var init := ops[..|ops| - 1];
      var last := ops[|ops| - 1];
      SelectSubsequence(init, keep);
      var r := Select(ops, keep);
      if keep(last) {
        assert r[..|r| - 1] == Select(init, keep) && r[|r| - 1] == last;
      } else {
        assert r == Select(init, keep);
      }
    }
  }

  function EndpointOf(o: Op): Endpoint {
    Endpoint(Upper(o.verb), o.path)
  }

  function EndpointsOf(ops: seq<Op>): (es: seq<Endpoint>)
    ensures |es| == |ops|
  {
    seq(|ops|, i requires 0 <= i < |ops| => EndpointOf(ops[i]))
  }

  /** One more operation met in the walk: the selection grows by it exactly when it is kept. */
  lemma SelectSnoc(ops: seq<Op>, o: Op, keep: Op -> bool)
    ensures Select(ops + [o], keep) == Select(ops, keep) + (if keep(o) then [o] else [])
  {
    assert (ops + [o])[..|ops|] == ops;
  }

  /** The walk of the first `i + 1` Path Items is the walk of the first `i` and then all of item `i`. */
  lemma PathOpsStep(paths: seq<(string, Json)>, i: nat, recognised: string -> bool)
    requires i < |paths| && paths[i].1.JObj?
    ensures PathOps(paths[..i + 1], recognised) ==
            PathOps(paths[..i], recognised) + MethodOps(paths[i].0, paths[i].1.fields[..|paths[i].1.fields|], recognised)
  {
    assert paths[..i + 1][..i] == paths[..i];
    assert paths[i].1.fields[..|paths[i].1.fields|] == paths[i].1.fields;
  }

  /** The walk of the first `j + 1` method entries is the walk of the first `j` and then of entry `j`. */
  lemma MethodOpsSnoc(path: string, methods: seq<(string, Json)>, j: nat, recognised: string -> bool)
    requires j < |methods|
    ensures MethodOps(path, methods[..j + 1], recognised) ==
            MethodOps(path, methods[..j], recognised) +
            (if recognised(methods[j].0) then [Op(methods[j].0, path, methods[j].1)] else [])
  {
    assert methods[..j + 1][..j] == methods[..j];
  }

  /** The walk so far, extended by method entry `j`: it grows by that entry's operation exactly when the key is recognised. */
  lemma MethodOpsStep(before: seq<Op>, path: string, methods: seq<(string, Json)>, j: nat, recognised: string -> bool)
    requires j < |methods|
    ensures recognised(methods[j].0) ==>
              before + MethodOps(path, methods[..j + 1], recognised) ==
              (before + MethodOps(path, methods[..j], recognised)) + [Op(methods[j].0, path, methods[j].1)]
    ensures !recognised(methods[j].0) ==>
              before + MethodOps(path, methods[..j + 1], recognised) == before + MethodOps(path, methods[..j], recognised)
  {
    assert methods[..j + 1][..j] == methods[..j];
    var m := MethodOps(path, methods[..j], recognised);
    assert before + (m + [Op(methods[j].0, path, methods[j].1)]) == (before + m) + [Op(methods[j].0, path, methods[j].1)];
  }

  /** Selecting from two stretches of the walk is selecting from each, one after the other. */
  lemma {:induction false} SelectAppend(a: seq<Op>, b: seq<Op>, keep: Op -> bool)
    ensures Select(a + b, keep) == Select(a, keep) + Select(b, keep)
    decreases |b|
  {
    if b != [] {
      var init := b[..|b| - 1];
      var last := b[|b| - 1];
      SelectAppend(a, init, keep);
      assert a + b == (a + init) + [last];
      assert b == init + [last];
      SelectSnoc(a + init, last, keep);
      SelectSnoc(init, last, keep);
    } else {
      assert a + b == a;
    }
  }

  lemma EndpointsOfAppend(a: seq<Op>, b: seq<Op>)
    ensures EndpointsOf(a + b) == EndpointsOf(a) + EndpointsOf(b)
  {
  }

  /** The walk of the first `j` method entries is a prefix of the walk of them all. */
  lemma {:induction false} MethodOpsPrefix(path: string, methods: seq<(string, Json)>, j: nat, recognised: string -> bool)
    requires j <= |methods|
    ensures forall o :: o in MethodOps(path, methods[..j], recognised) ==> o in MethodOps(path, methods, recognised)
    decreases |methods| - j
  {
    if j < |methods| {
      MethodOpsPrefix(path, methods, j + 1, recognised);
      MethodOpsSnoc(path, methods, j, recognised);
    } else {
      assert methods[..j] == methods;
    }
  }

  /** A Path Item with an operation that is not an object breaks the shape of the whole walk. */
  lemma {:induction false} ItemOpsNotObjects(paths: seq<(string, Json)>, i: nat, recognised: string -> bool)
    requires i < |paths| && paths[i].1.JObj?
    requires !OpsAreObjects(MethodOps(paths[i].0, paths[i].1.fields, recognised))
    ensures !OpsAreObjects(PathOps(paths, recognised))
    decreases |paths|
  {
    var init := paths[..|paths| - 1];
    var last := paths[|paths| - 1];
    var tail := if last.1.JObj? then MethodOps(last.0, last.1.fields, recognised) else [];
    OpsAreObjectsAppend(PathOps(init, recognised), tail);
    if i < |paths| - 1 {
      ItemOpsNotObjects(init, i, recognised);
    }
  }

  /**
    One more operation met in the walk: its pair is reported after the others exactly when it is
    kept (`prefix` is what was reported before this stretch of the walk).
    */
  lemma SelectEndpointsSnoc(prefix: seq<Endpoint>, ops: seq<Op>, o: Op, keep: Op -> bool)
    ensures prefix + EndpointsOf(Select(ops + [o], keep)) ==
            (prefix + EndpointsOf(Select(ops, keep))) + (if keep(o) then [EndpointOf(o)] else [])
  {
    SelectSnoc(ops, o, keep);
    var e := EndpointsOf(Select(ops, keep));
    if keep(o) {
      assert EndpointsOf(Select(ops, keep) + [o]) == e + [EndpointOf(o)];
      assert prefix + (e + [EndpointOf(o)]) == (prefix + e) + [EndpointOf(o)];
    } else {
      assert Select(ops + [o], keep) == Select(ops, keep);
    }
  }

  /** Entry `j` of Path Item `i`, when its method key is recognised, is an operation of the walk. */
  lemma {:induction false} OpInWalk(paths: seq<(string, Json)>, i: nat, j: nat, recognised: string -> bool)
    requires i < |paths| && paths[i].1.JObj? && j < |paths[i].1.fields|
    requires recognised(paths[i].1.fields[j].0)
    ensures Op(paths[i].1.fields[j].0, paths[i].0, paths[i].1.fields[j].1) in PathOps(paths, recognised)
    decreases |paths|
  {
    var init := paths[..|paths| - 1];
    if i < |paths| - 1 {
      OpInWalk(init, i, j, recognised);
    } else {
      MethodOpsMembers(paths[i].0, paths[i].1.fields, recognised);
      assert paths[i].1.fields[j] in paths[i].1.fields;
    }
  }

  /** A filter that keeps everything keeps the whole walk, order and repetitions included. */
  lemma {:induction false} SelectAll(ops: seq<Op>, keep: Op -> bool)
    requires forall o :: o in ops ==> keep(o)
    ensures Select(ops, keep) == ops
  {
    if ops != [] {
      var init := ops[..|ops| - 1];
      SelectAll(init, keep);
      assert ops == init + [ops[|ops| - 1]];
    }
  }

  /** A subsequence is never longer than the sequence it is taken from. */
  lemma {:induction false} SubsequenceLength<T>(a: seq<T>, b: seq<T>)
    requires IsSubsequence(a, b)
    ensures |a| <= |b|
    decreases |b|
  {
    if a != [] {
      if a[|a| - 1] == b[|b| - 1] && IsSubsequence(a[..|a| - 1], b[..|b| - 1]) {
        SubsequenceLength(a[..|a| - 1], b[..|b| - 1]);
      } else {
        SubsequenceLength(a, b[..|b| - 1]);
      }
    }
  }

  /** Reporting `(METHOD, path)` pairs keeps the selection a subsequence of the whole walk. */
  lemma {:induction false} EndpointsOfSubsequence(a: seq<Op>, b: seq<Op>)
    requires IsSubsequence(a, b)
    ensures IsSubsequence(EndpointsOf(a), EndpointsOf(b))
    decreases |b|
  {
    if a != [] {
      var ea, eb := EndpointsOf(a), EndpointsOf(b);
      assert ea[..|a| - 1] == EndpointsOf(a[..|a| - 1]);
      assert eb[..|b| - 1] == EndpointsOf(b[..|b| - 1]);
      if a[|a| - 1] == b[|b| - 1] && IsSubsequence(a[..|a| - 1], b[..|b| - 1]) {
        EndpointsOfSubsequence(a[..|a| - 1], b[..|b| - 1]);
      } else {
        EndpointsOfSubsequence(a, b[..|b| - 1]);
      }
    }
  }

  /** Every reported pair comes from an operation of the list it reports. */
  lemma EndpointsOfMember(ops: seq<Op>, e: Endpoint)
    requires e in EndpointsOf(ops)
    ensures exists o :: o in ops && e == EndpointOf(o)
  {
    var k :| 0 <= k < |ops| && EndpointsOf(ops)[k] == e;
    assert ops[k] in ops;
  }

  /** Upper-casing a recognised verb, whatever its case, gives one of the seven upper-case names. */
  lemma UpperOfVerb(m: string)
    requires Lower(m) in Verbs
    ensures Upper(m) in UpperVerbs
  {
    UpperOfLower(m);
    UpperOfExactVerb(Lower(m));
  }

  /** Upper-casing one of the seven lower-case verbs gives its upper-case name. */
  lemma UpperOfExactVerb(v: string)
    requires v in Verbs
    ensures Upper(v) in UpperVerbs
  {
    if v == "get" { assert Upper(v) == "GET"; }
    else if v == "post" { assert Upper(v) == "POST"; }
    else if v == "put" { assert Upper(v) == "PUT"; }
    else if v == "delete" { assert Upper(v) == "DELETE"; }
    else if v == "patch" { assert Upper(v) == "PATCH"; }
    else if v == "options" { assert Upper(v) == "OPTIONS"; }
    else { assert Upper(v) == "HEAD"; }
  }
}
