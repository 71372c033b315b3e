/** Layout vocabulary shared by the scene and camera serialisers, and the
    accessor padding of src/generic.ts: a flat float array in which every
    element of a glTF accessor is followed by one `0`. */
module Generic {

  /** A property a caller may leave out of a `Partial<...Options>` object. */
  datatype Option<T> = None | Some(value: T) {
    function GetOr(default: T): T {
      if Some? then value else default
    }
  }

  /** The outcome of an operation that either completes or throws. */
  datatype Outcome = Pass | Fail(message: string)

  /** `Float32Array.BYTES_PER_ELEMENT`. */
  const FloatBytes: nat := 4
  /** `vec4Size`: the byte size of one 4-float vector. */
  const Vec4Size: nat := 4 * FloatBytes

  /** A gl-matrix `vec3`, by value. */
  datatype Vec3 = Vec3(x: real, y: real, z: real)

  /** `vec3.create()`. */
  const Zero3 := Vec3(0.0, 0.0, 0.0)

  /** The spread `...v` of a `vec3` inside an array literal. */
  function Spread(v: Vec3): seq<real> {
    [v.x, v.y, v.z]
  }

  /** Reads three consecutive floats back as a vector. */
  function Vec3At(s: seq<real>, at: nat): Vec3
    requires at + 3 <= |s|
  {
    Vec3(s[at], s[at + 1], s[at + 2])
  }

  /** The float index addressed by a byte offset into a float buffer. */
  function FloatIndex(byteOffset: nat): (i: nat)
    requires byteOffset % FloatBytes == 0
    ensures i * FloatBytes == byteOffset
  {
    byteOffset / FloatBytes
  }

  lemma Vec4SizeIsFourFloats()
    ensures Vec4Size == 16 && FloatIndex(Vec4Size) == 4
  {
  }

  // ---------------------------------------------------------------------
  // Concatenation of records

  /** The records laid end to end, in order. */
  function Concat(rs: seq<seq<real>>): seq<real> {
    if rs == [] then [] else Concat(rs[..|rs| - 1]) + rs[|rs| - 1]
  }

  lemma {:induction false} ConcatAppend(a: seq<seq<real>>, b: seq<seq<real>>)
    ensures Concat(a + b) == Concat(a) + Concat(b)
    decreases |b|
  {
    if b == [] {
      assert a + b == a;
    } else {
      var b' := b[..|b| - 1];
      assert (a + b)[..|a + b| - 1] == a + b';
      assert (a + b)[|a + b| - 1] == b[|b| - 1];
      ConcatAppend(a, b');
    }
  }

  lemma ConcatSingle(r: seq<real>)
    ensures Concat([r]) == r
  {
    assert [r][..0] == [];
  }

  /** Record `i` sits between the records before it and the records after it. */
  lemma {:induction false} ConcatSplit(rs: seq<seq<real>>, i: nat)
    requires i < |rs|
    ensures Concat(rs) == Concat(rs[..i]) + rs[i] + Concat(rs[i + 1..])
  {
    var a, m, b := rs[..i], [rs[i]], rs[i + 1..];
    assert rs == (a + m) + b;
    ConcatAppend(a + m, b);
    ConcatAppend(a, m);
    ConcatSingle(rs[i]);
  }

  /** All records have `n` floats. */
  ghost predicate Uniform(rs: seq<seq<real>>, n: nat) {
    forall j | 0 <= j < |rs| :: |rs[j]| == n
  }

  lemma {:induction false} ConcatUniformLength(rs: seq<seq<real>>, n: nat)
    requires Uniform(rs, n)
    ensures |Concat(rs)| == n * |rs|
    decreases |rs|
  {
    if rs != [] {
      var k := |rs| - 1;
      ConcatUniformLength(rs[..k], n);
      assert |Concat(rs)| == n * k + n;
      assert n * k + n == n * (k + 1);
    }
  }

  lemma {:induction false} MulStep(n: nat, i: nat, k: nat)
    requires i < k
    ensures n * i + n <= n * k
  {
    assert n * i + n == n * (i + 1);
    assert n * (i + 1) <= n * k;
  }

  /** With fixed-size records of `n` floats, record `i` occupies floats `n*i .. n*i+n`. */
  lemma {:induction false} ConcatUniformSlice(rs: seq<seq<real>>, n: nat, i: nat)
    requires Uniform(rs, n) && i < |rs|
    ensures |Concat(rs)| == n * |rs|
    ensures n * i + n <= |Concat(rs)| && Concat(rs)[n * i .. n * i + n] == rs[i]
  {
    ConcatUniformLength(rs, n);
    ConcatUniformLength(rs[..i], n);
    MulStep(n, i, |rs|);
    ConcatSplit(rs, i);
    var before, after := Concat(rs[..i]), Concat(rs[i + 1..]);
    assert |before| == n * i && |rs[i]| == n;
    assert Concat(rs)[|before| .. |before| + |rs[i]|] == rs[i];
  }

  // ---------------------------------------------------------------------
  // Fixed-size records laid end to end (the layout of a storage array)

  /** Each value serialised by `encode`. */
  function Records<T>(xs: seq<T>, encode: T -> seq<real>): seq<seq<real>> {
    seq(|xs|, i requires 0 <= i < |xs| => encode(xs[i]))
  }

  /** The serialised values laid end to end, in list order. */
  function PackRecords<T>(xs: seq<T>, encode: T -> seq<real>): seq<real> {
    Concat(Records(xs, encode))
  }

  /** The value at `index` of a packed array of `n`-float records, decoded from the record layout. */
  function RecordAt<T>(flat: seq<real>, n: nat, index: nat, decode: seq<real> -> Option<T>): Option<T> {
    if n * index + n <= |flat| then decode(flat[n * index .. n * index + n]) else None
  }

  /** With an `n`-float serialiser that `decode` inverts, value `i` is record
      `i` of the packed array, at floats `n*i .. n*i+n`, and reads back as itself. */
  lemma {:induction false} PackedRecordLayout<T>(xs: seq<T>, encode: T -> seq<real>, decode: seq<real> -> Option<T>, n: nat, i: nat)
    requires forall x :: |encode(x)| == n
    requires forall x :: decode(encode(x)) == Some(x)
    requires i < |xs|
    ensures |PackRecords(xs, encode)| == n * |xs|
    ensures n * i + n <= |PackRecords(xs, encode)|
    ensures PackRecords(xs, encode)[n * i .. n * i + n] == encode(xs[i])
    ensures RecordAt(PackRecords(xs, encode), n, i, decode) == Some(xs[i])
  {
    assert Uniform(Records(xs, encode), n);
    ConcatUniformSlice(Records(xs, encode), n, i);
  }

  /** Indices past the end of the list hold no value. */
  lemma {:induction false} PackedPastEnd<T>(xs: seq<T>, encode: T -> seq<real>, decode: seq<real> -> Option<T>, n: nat, i: nat)
    requires forall x :: |encode(x)| == n
    requires 0 < n && |xs| <= i
    ensures RecordAt(PackRecords(xs, encode), n, i, decode) == None
  {
    assert Uniform(Records(xs, encode), n);
    ConcatUniformLength(Records(xs, encode), n);
    MulStep(n, |xs|, i + 1);
  }

  // ---------------------------------------------------------------------
  // Accessor padding (makeVec4ArrayFromAccessor)

  /** An accessor's elements, `getElement(0) .. getElement(getCount() - 1)`. */
  type Accessor = seq<seq<real>>

  /** Each element with its trailing padding `0`. */
  function PadEach(elements: Accessor): seq<seq<real>> {
    seq(|elements|, i requires 0 <= i < |elements| => elements[i] + [0.0])
  }

  /** The specification of the padded flat array. */
  function Padded(elements: Accessor): seq<real> {
    Concat(PadEach(elements))
  }

  /** Appending one element appends it and its pad to the output. */
  lemma {:induction false} PaddedSnoc(elements: Accessor, e: seq<real>)
    ensures Padded(elements + [e]) == Padded(elements) + e + [0.0]
  {
    var rs := PadEach(elements + [e]);
    assert rs[..|rs| - 1] == PadEach(elements);
  }

  /** Builds the flat array element by element, as the `for` loop with `push` does. */
  method MakeVec4ArrayFromAccessor(input: Accessor) returns (output: seq<real>)
    ensures output == Padded(input)
  {
    output := [];
    for i := 0 to |input|
      invariant output == Padded(input[..i])
    {
      PaddedSnoc(input[..i], input[i]);
      assert input[..i + 1] == input[..i] + [input[i]];
      output := output + input[i] + [0.0];
    }
    assert input[..|input|] == input;
  }

  /** The total number of floats in the elements. */
  function SumLengths(elements: Accessor): nat {
    if elements == [] then 0
    else SumLengths(elements[..|elements| - 1]) + |elements[|elements| - 1]|
  }

  /** An element of length k contributes k + 1 floats. */
  lemma {:induction false} PaddedLength(elements: Accessor)
    ensures |Padded(elements)| == SumLengths(elements) + |elements|
    decreases |elements|
  {
    if elements != [] {
      var k := |elements| - 1;
      assert elements == elements[..k] + [elements[k]];
      PaddedSnoc(elements[..k], elements[k]);
      PaddedLength(elements[..k]);
    }
  }

  /** Element `i` is copied unchanged, followed by its `0`, right after the
      padded elements before it: the output keeps accessor order. */
  lemma {:induction false} PaddedElement(elements: Accessor, i: nat)
    requires i < |elements|
    ensures var at := SumLengths(elements[..i]) + i;
      at + |elements[i]| + 1 <= |Padded(elements)| &&
      Padded(elements)[at .. at + |elements[i]| + 1] == elements[i] + [0.0]
  {
    var rs := PadEach(elements);
    ConcatSplit(rs, i);
    assert rs[..i] == PadEach(elements[..i]);
    PaddedLength(elements[..i]);
  }

  /** All elements are 3-vectors (a `VEC3` position accessor). */
  ghost predicate AllVec3(elements: Accessor) {
    forall i | 0 <= i < |elements| :: |elements[i]| == 3
  }

  /** For 3-vectors the output has a 4-float stride: element `i` at `4i .. 4i+2`, `0` at `4i+3`. */
  lemma {:induction false} PaddedVec3(elements: Accessor)
    requires AllVec3(elements)
    ensures |Padded(elements)| == 4 * |elements|
    ensures forall i | 0 <= i < |elements| ::
      Padded(elements)[4 * i .. 4 * i + 4] == elements[i] + [0.0]
  {
    var rs := PadEach(elements);
    assert Uniform(rs, 4);
    ConcatUniformLength(rs, 4);
    forall i | 0 <= i < |elements|
      ensures Padded(elements)[4 * i .. 4 * i + 4] == elements[i] + [0.0]
    {
      ConcatUniformSlice(rs, 4, i);
    }
  }

  /** The 3-vectors read back from a 4-float-stride array, dropping each pad. */
  function Unpad3(flat: seq<real>): seq<seq<real>> {
    seq(|flat| / 4, i requires 0 <= i < |flat| / 4 => flat[4 * i .. 4 * i + 3])
  }

  /** Reading the padded array back with a 4-float stride recovers the 3-vectors. */
  lemma {:induction false} UnpadPadded(elements: Accessor)
    requires AllVec3(elements)
    ensures Unpad3(Padded(elements)) == elements
  {
    PaddedVec3(elements);
    var flat := Padded(elements);
    forall i | 0 <= i < |elements|
      ensures flat[4 * i .. 4 * i + 3] == elements[i]
    {
      assert flat[4 * i .. 4 * i + 3] == flat[4 * i .. 4 * i + 4][..3];
    }
  }

  /** An accessor with no elements yields an empty array. */
  lemma PaddedEmpty()
    ensures Padded([]) == []
  {
  }
}
