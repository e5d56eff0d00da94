/**
 * JavaScript values, as far as the library inspects them. A plain object is the
 * sequence of its own enumerable properties in enumeration order; a well-formed
 * object has distinct keys (`DistinctKeys`). The operations are the property
 * accesses the library performs: read, write, delete and spread.
 */
module Js {
  import opened Wrappers

  datatype JsValue =
    | Undefined
    | Null
    | Bool(b: bool)
    | Num(n: real)
    | Str(s: string)
    | Obj(props: seq<(string, JsValue)>)

  type Props = seq<(string, JsValue)>

  /** `v == null`: the values that `??` replaces. */
  predicate IsNullish(v: JsValue) {
    v.Undefined? || v.Null?
  }

  /** `a ?? b` */
  function Nullish(a: JsValue, b: JsValue): JsValue {
    if IsNullish(a) then b else a
  }

  predicate DistinctKeys(p: Props) {
    forall i, j :: 0 <= i < j < |p| ==> p[i].0 != p[j].0
  }

  /** Position of the property named `k`, or `|p|` when `k` is not a property. */
  function Find(p: Props, k: string): (i: nat)
    ensures i <= |p|
    ensures forall j :: 0 <= j < i ==> p[j].0 != k
    ensures i < |p| ==> p[i].0 == k
  {
    if |p| == 0 then 0 else if p[0].0 == k then 0 else 1 + Find(p[1..], k)
  }

  predicate Has(p: Props, k: string) {
    Find(p, k) < |p|
  }

  /** `obj[k]` for an own property; `None` when `k` is not one. */
  function Get(p: Props, k: string): Option<JsValue> {
    var i := Find(p, k);
    if i < |p| then Some(p[i].1) else None
  }

  /** `obj[k] = v`: an existing property keeps its place, a new one goes last. */
  function Put(p: Props, k: string, v: JsValue): Props {
    var i := Find(p, k);
    if i < |p| then p[i := (k, v)] else p + [(k, v)]
  }

  /** `delete obj[k]`, as `Reflect.deleteProperty(obj, k)` does it. */
  function Delete(p: Props, k: string): Props {
    var i := Find(p, k);
    if i < |p| then p[..i] + p[i + 1..] else p
  }

  /** Writes the properties of `q`, in order, onto `p`: the object `{...p, ...q}`. */
  function Assign(p: Props, q: Props): Props
    decreases |q|
  {
    if |q| == 0 then p else Assign(Put(p, q[0].0, q[0].1), q[1..])
  }

  /** The own enumerable properties that `{...v}` spreads and `Object.entries(v)` lists. */
  function OwnEntries(v: JsValue): Props {
    if v.Obj? then v.props else []
  }

  /** The three facts of `Find`'s contract pin its result down. */
  lemma FindUnique(p: Props, k: string, i: nat)
    requires i <= |p|
    requires forall j :: 0 <= j < i ==> p[j].0 != k
    requires i < |p| ==> p[i].0 == k
    ensures Find(p, k) == i
  {
  }

  /** Reading after a write sees the written value at `k` and nothing else changed. */
  lemma PutGet(p: Props, k: string, v: JsValue, k': string)
    ensures Get(Put(p, k, v), k') == if k' == k then Some(v) else Get(p, k')
  {
    var i := Find(p, k);
    var q := Put(p, k, v);
    var f := Find(p, k');
    if i < |p| {
      assert forall j :: 0 <= j < |q| ==> q[j].0 == p[j].0;
      FindUnique(q, k', f);
    } else {
      assert forall j :: 0 <= j < |p| ==> q[j].0 == p[j].0;
      if k' == k {
        FindUnique(q, k', |p|);
      } else if f < |p| {
        FindUnique(q, k', f);
      } else {
        FindUnique(q, k', |q|);
      }
    }
  }

  /** A write keeps the keys distinct. */
  lemma PutDistinct(p: Props, k: string, v: JsValue)
    requires DistinctKeys(p)
    ensures DistinctKeys(Put(p, k, v))
  {
  }

  /** After `delete obj[k]`, `k` is gone and every other property reads as before. */
  lemma DeleteGet(p: Props, k: string, k': string)
    requires DistinctKeys(p)
    ensures Get(Delete(p, k), k') == if k' == k then None else Get(p, k')
  {
    var i := Find(p, k);
    if i < |p| {
      if k' == k {
        DeleteGone(p, i, k);
      } else {
        DeleteOther(p, i, k, k');
      }
    }
  }

  lemma DeleteGone(p: Props, i: nat, k: string)
    requires DistinctKeys(p)
    requires i == Find(p, k) < |p|
    ensures Get(Delete(p, k), k) == None
  {
    var q := Delete(p, k);
    forall j | 0 <= j < |q|
      ensures q[j].0 != k
    {
      if j >= i {
        assert q[j] == p[j + 1];
        assert p[i].0 != p[j + 1].0;
      }
    }
    FindUnique(q, k, |q|);
  }

  lemma DeleteOther(p: Props, i: nat, k: string, k': string)
    requires i == Find(p, k) < |p|
    requires k' != k
    ensures Get(Delete(p, k), k') == Get(p, k')
  {
    var q := Delete(p, k);
    assert forall j :: 0 <= j < i ==> q[j] == p[j];
    assert forall j :: i <= j < |q| ==> q[j] == p[j + 1];
    var f := Find(p, k');
    if f < i {
      FindUnique(q, k', f);
    } else if f < |p| {
      assert f != i;
      FindUnique(q, k', f - 1);
    } else {
      FindUnique(q, k', |q|);
    }
  }

  /** A delete keeps the keys distinct. */
  lemma DeleteDistinct(p: Props, k: string)
    requires DistinctKeys(p)
    ensures DistinctKeys(Delete(p, k))
  {
    var i := Find(p, k);
    if i < |p| {
      var q := Delete(p, k);
      assert forall j :: 0 <= j < i ==> q[j] == p[j];
      assert forall j :: i <= j < |q| ==> q[j] == p[j + 1];
    }
  }

  /** Spreading one more property is one more write. */
  lemma {:induction false} AssignSnoc(p: Props, q: Props, k: string, v: JsValue)
    ensures Assign(p, q + [(k, v)]) == Put(Assign(p, q), k, v)
    decreases |q|
  {
    if |q| == 0 {
      assert q + [(k, v)] == [(k, v)];
    } else {
      assert (q + [(k, v)])[1..] == q[1..] + [(k, v)];
      AssignSnoc(Put(p, q[0].0, q[0].1), q[1..], k, v);
    }
  }

  /**
   * `{...p, ...q}`: a key of `q` takes `q`'s value, whatever `p` held; any other
   * key keeps `p`'s value, and a key of neither stays absent.
   */
  lemma {:induction false} AssignGet(p: Props, q: Props, k: string)
    requires DistinctKeys(q)
    ensures Get(Assign(p, q), k) == if Has(q, k) then Get(q, k) else Get(p, k)
    decreases |q|
  {
    if |q| > 0 {
      var r := Put(p, q[0].0, q[0].1);
      var rest := q[1..];
      assert DistinctKeys(rest);
      AssignGet(r, rest, k);
      PutGet(p, q[0].0, q[0].1, k);
    }
  }

  /** A key `q` does not have keeps `p`'s reading in `{...p, ...q}`, whether or not `q`'s keys are distinct. */
  lemma {:induction false} AssignAbsent(p: Props, q: Props, k: string)
    ensures !Has(q, k) ==> Get(Assign(p, q), k) == Get(p, k)
    decreases |q|
  {
    if |q| > 0 {
      AssignAbsent(Put(p, q[0].0, q[0].1), q[1..], k);
      PutGet(p, q[0].0, q[0].1, k);
    }
  }
}
