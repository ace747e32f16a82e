/**
 * The data loader of a process object: the JSON document of one process of
 * one event is copied into four parallel sequences x, y, z, t.
 */
module Loader {
  import opened Wrappers

  /** The decoded JSON document `{x: [...], y: [...], z: [...], t: [...]}`. */
  datatype Document = Document(x: seq<real>, y: seq<real>, z: seq<real>, t: seq<real>)

  /** Every point has all four values: the sequences have one common length. */
  predicate Parallel(r: Document)
  {
    |r.y| == |r.x| && |r.z| == |r.x| && |r.t| == |r.x|
  }

  /** A point record as the rest of the viewer reads it: point i is (x[i], y[i], z[i]) at time t[i]. */
  type Record = r: Document | Parallel(r) witness Document([], [], [], [])

  /** A JavaScript number read from an array: reading past the end yields `undefined`. */
  datatype JsValue = Undefined | Number(v: real)

  /** The JavaScript array read `a[i]`. */
  function Read(a: seq<real>, i: nat): (r: JsValue)
    ensures r.Number? <==> i < |a|
    ensures r.Number? ==> r.v == a[i]
  {
    if i < |a| then Number(a[i]) else Undefined
  }

  /** The four sequences as the loader builds them, each entry a JavaScript value. */
  datatype RawRecord = RawRecord(x: seq<JsValue>, y: seq<JsValue>, z: seq<JsValue>, t: seq<JsValue>)

  /** `raw` holds, for every index of `d.x`, the value each of the four arrays of `d` has there. */
  predicate CopiedFrom(raw: RawRecord, d: Document)
  {
    && |raw.x| == |d.x| && |raw.y| == |d.x| && |raw.z| == |d.x| && |raw.t| == |d.x|
    && forall i | 0 <= i < |d.x| ::
         && raw.x[i] == Read(d.x, i) && raw.y[i] == Read(d.y, i)
         && raw.z[i] == Read(d.z, i) && raw.t[i] == Read(d.t, i)
  }

  /**
   * The loader as written: the length of `x` decides how many entries are
   * copied, and nothing checks that `y`, `z` and `t` are that long, so a
   * short sequence contributes `undefined` entries.
   */
  method InitData(d: Document) returns (raw: RawRecord)
    ensures CopiedFrom(raw, d)
    ensures forall i | 0 <= i < |d.x| :: raw.x[i] == Number(d.x[i])
  {
    var x, y, z, t := [], [], [], [];
    var size := |d.x|;
    var i := 0;
    while i < size
      invariant 0 <= i <= size
      invariant |x| == i && |y| == i && |z| == i && |t| == i
      invariant forall k | 0 <= k < i ::
                  x[k] == Read(d.x, k) && y[k] == Read(d.y, k) && z[k] == Read(d.z, k) && t[k] == Read(d.t, k)
    {
      x := x + [Read(d.x, i)];
      y := y + [Read(d.y, i)];
      z := z + [Read(d.z, i)];
      t := t + [Read(d.t, i)];
      i := i + 1;
    }
    raw := RawRecord(x, y, z, t);
  }

  /** Which sequence of a document is shorter than `x`. */
  datatype LoadError = ShortY | ShortZ | ShortT

  /**
   * The loader with the missing check added: a document whose `y`, `z` or
   * `t` is shorter than `x` is refused instead of padded with `undefined`.
   */
  function Load(d: Document): (r: Result<Record, LoadError>)
    ensures r.Success? <==> |d.y| >= |d.x| && |d.z| >= |d.x| && |d.t| >= |d.x|
    ensures r.Success? ==> |r.value.x| == |d.x|
    ensures r.Success? ==> forall i | 0 <= i < |d.x| ::
              && r.value.x[i] == d.x[i] && r.value.y[i] == d.y[i]
              && r.value.z[i] == d.z[i] && r.value.t[i] == d.t[i]
    ensures r == Failure(ShortY) <==> |d.y| < |d.x|
    ensures r == Failure(ShortZ) <==> |d.y| >= |d.x| && |d.z| < |d.x|
  {
    var n := |d.x|;
    if |d.y| < n then Failure(ShortY)
    else if |d.z| < n then Failure(ShortZ)
    else if |d.t| < n then Failure(ShortT)
    else Success(Document(d.x, d.y[..n], d.z[..n], d.t[..n]))
  }

  /**
   * The corrected loader accepts exactly the documents the loader as written
   * copies without an `undefined`, and then holds the same numbers.
   */
  lemma LoadAgreesWithInitData(d: Document, raw: RawRecord)
    requires CopiedFrom(raw, d)
    ensures Load(d).Success? <==>
              forall i | 0 <= i < |raw.x| :: raw.y[i].Number? && raw.z[i].Number? && raw.t[i].Number?
    ensures Load(d).Success? ==> forall i | 0 <= i < |raw.x| ::
              && raw.x[i] == Number(Load(d).value.x[i]) && raw.y[i] == Number(Load(d).value.y[i])
              && raw.z[i] == Number(Load(d).value.z[i]) && raw.t[i] == Number(Load(d).value.t[i])
  {
    var n := |d.x|;
    if !Load(d).Success? {
      if |d.y| < n {
        assert !raw.y[|d.y|].Number?;
      } else if |d.z| < n {
        assert !raw.z[|d.z|].Number?;
      } else {
        assert !raw.t[|d.t|].Number?;
      }
    }
  }
}
