/**
  JSON documents and RFC 6902 patches, as the conditional API applies them.

  Member names are the ones the repository mentions, plus `Other`. A pointer is the list of its
  decoded tokens, so the `~0`/`~1` escapes of RFC 6901 do not appear.
 */
module JsonPatch {
  import opened Wrappers

  datatype Name =
    | ApiVersion | Kind | Metadata | Spec | Status
    | Uid | ResourceVersion | Namespace | NameField | ManagedFields | Annotations
    | Selector | App | Ports | Port | TargetPort | Protocol
    | Heartbeat | Authority | Scratch
    | Other(text: string)

  datatype Json =
    | Null
    | Bool(b: bool)
    | Num(n: int)
    | Str(s: string)
    | Arr(items: seq<Json>)
    | Obj(fields: map<Name, Json>)

  datatype Token = Key(name: Name) | Index(i: nat)
  type Pointer = seq<Token>

  function Get(j: Json, p: Pointer): Option<Json>
    decreases |p|
  {
    if p == [] then Some(j)
    else match (j, p[0])
      case (Obj(f), Key(k)) => if k in f then Get(f[k], p[1..]) else None
      case (Arr(xs), Index(i)) => if i < |xs| then Get(xs[i], p[1..]) else None
      case _ => None
  }

  /** What one operation does at the end of its pointer: sections 4.1, 4.3 and 4.2 of RFC 6902. */
  datatype Change = Put(v: Json) | Set(v: Json) | Drop

  function Edit(j: Json, p: Pointer, c: Change): Option<Json>
    decreases |p|
  {
    if p == [] then
      (if c.Drop? then None else Some(c.v))
    else match (j, p[0])
      case (Obj(f), Key(k)) =>
        if |p| == 1 then
          (match c
           case Put(v) => Some(Obj(f[k := v]))
           case Set(v) => if k in f then Some(Obj(f[k := v])) else None
           case Drop => if k in f then Some(Obj(f - {k})) else None)
        else if k !in f then None
        else (match Edit(f[k], p[1..], c) case Some(x) => Some(Obj(f[k := x])) case None => None)
      case (Arr(xs), Index(i)) =>
        if |p| == 1 then
          (match c
           case Put(v) => if i <= |xs| then Some(Arr(xs[..i] + [v] + xs[i..])) else None
           case Set(v) => if i < |xs| then Some(Arr(xs[i := v])) else None
           case Drop => if i < |xs| then Some(Arr(xs[..i] + xs[i + 1..])) else None)
        else if i >= |xs| then None
        else (match Edit(xs[i], p[1..], c) case Some(x) => Some(Arr(xs[i := x])) case None => None)
      case _ => None
  }

  datatype Op =
    | Test(path: Pointer, value: Json)
    | Replace(path: Pointer, value: Json)
    | Add(path: Pointer, value: Json)
    | Remove(path: Pointer)
    | Copy(source: Pointer, path: Pointer)
    | Move(source: Pointer, path: Pointer)

  function ApplyOp(j: Json, op: Op): Option<Json> {
    match op
    case Test(p, v) => if Get(j, p) == Some(v) then Some(j) else None
    case Replace(p, v) => Edit(j, p, Set(v))
    case Add(p, v) => Edit(j, p, Put(v))
    case Remove(p) => Edit(j, p, Drop)
    case Copy(s, p) =>
      (match Get(j, s) case Some(v) => Edit(j, p, Put(v)) case None => None)
    case Move(s, p) =>
      (match Get(j, s)
       case Some(v) =>
         (match Edit(j, s, Drop) case Some(x) => Edit(x, p, Put(v)) case None => None)
       case None => None)
  }

  /** Section 5: the first operation that fails leaves no effect at all. */
  function Apply(j: Json, ops: seq<Op>): Option<Json>
    decreases |ops|
  {
    if ops == [] then Some(j)
    else match ApplyOp(j, ops[0])
      case Some(x) => Apply(x, ops[1..])
      case None => None
  }

  /** Neither pointer reaches into what the other one designates. */
  predicate Apart(p: Pointer, q: Pointer) {
    exists k :: 0 <= k < |p| && k < |q| && p[k] != q[k]
  }

  /** Replacing an existing value changes that value and nothing apart from it. */
  lemma {:induction false} SetPresent(j: Json, p: Pointer, v: Json)
    requires Get(j, p).Some?
    ensures Edit(j, p, Set(v)).Some?
    ensures Get(Edit(j, p, Set(v)).value, p) == Some(v)
    decreases |p|
  {
    if |p| > 0 {
      match (j, p[0])
      case (Obj(f), Key(k)) => if |p| > 1 { SetPresent(f[k], p[1..], v); }
      case (Arr(xs), Index(i)) => if |p| > 1 { SetPresent(xs[i], p[1..], v); }
    }
  }

  lemma {:induction false} SetLeavesApart(j: Json, p: Pointer, v: Json, q: Pointer)
    requires Edit(j, p, Set(v)).Some? && Apart(p, q)
    ensures Get(Edit(j, p, Set(v)).value, q) == Get(j, q)
    decreases |p|
  {
    var d :| 0 <= d < |p| && d < |q| && p[d] != q[d];
    if p[0] == q[0] {
      assert p[1..][d - 1] != q[1..][d - 1];
      assert Apart(p[1..], q[1..]);
      match (j, p[0])
      case (Obj(f), Key(k)) => SetLeavesApart(f[k], p[1..], v, q[1..]);
      case (Arr(xs), Index(i)) => SetLeavesApart(xs[i], p[1..], v, q[1..]);
    }
  }
}
