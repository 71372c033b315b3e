/** Spheres (src/spheres.ts): analytic spheres with constructor defaults,
    serialised as three 4-float vectors, and the sample scene list. */
module Spheres {
  import opened Generic

  datatype Sphere = Sphere(
    position: Vec3,
    radius: real,
    diffuse: Vec3,
    roughness: real,
    emissive: Vec3)

  /** `Partial<SphereOptions>`: every property may be left out. */
  datatype SphereOptions = SphereOptions(
    position: Option<Vec3>,
    radius: Option<real>,
    diffuse: Option<Vec3>,
    roughness: Option<real>,
    emissive: Option<Vec3>)

  const NoOptions := SphereOptions(None, None, None, None, None)

  /** The field initialisers of `class Sphere`. */
  const Default := Sphere(Zero3, 1.0, Zero3, 0.5, Zero3)

  /** `Sphere.size`, in bytes. */
  const Size: nat := 3 * Vec4Size
  /** Floats in one serialised record. */
  const RecordFloats: nat := 12

  // Float offsets of the fields within a record.
  const PositionAt: nat := 0
  const RadiusAt: nat := 3
  const DiffuseAt: nat := 4
  const RoughnessAt: nat := 7
  const EmissiveAt: nat := 8
  const PadAt: nat := 11

  /** `new Sphere(options)`: the defaults, overwritten by the supplied options. */
  function New(options: SphereOptions): (r: Sphere)
    ensures options.position.Some? ==> r.position == options.position.value
    ensures options.position.None? ==> r.position == Default.position
    ensures options.radius.Some? ==> r.radius == options.radius.value
    ensures options.radius.None? ==> r.radius == Default.radius
    ensures options.diffuse.Some? ==> r.diffuse == options.diffuse.value
    ensures options.diffuse.None? ==> r.diffuse == Default.diffuse
    ensures options.roughness.Some? ==> r.roughness == options.roughness.value
    ensures options.roughness.None? ==> r.roughness == Default.roughness
    ensures options.emissive.Some? ==> r.emissive == options.emissive.value
    ensures options.emissive.None? ==> r.emissive == Default.emissive
  {
    Sphere(
      options.position.GetOr(Default.position),
      options.radius.GetOr(Default.radius),
      options.diffuse.GetOr(Default.diffuse),
      options.roughness.GetOr(Default.roughness),
      options.emissive.GetOr(Default.emissive))
  }

  /** Omitted options leave every field at its default. */
  lemma NewWithoutOptions()
    ensures New(NoOptions) == Default
    ensures Default.radius == 1.0 && Default.roughness == 0.5
    ensures Default.position == Default.diffuse == Default.emissive == Zero3
  {
  }

  /** A supplied option overrides its own field and no other. */
  lemma NewOverridesOnlyItsField(options: SphereOptions, v: Vec3, x: real)
    ensures New(options.(position := Some(v))) == New(options).(position := v)
    ensures New(options.(radius := Some(x))) == New(options).(radius := x)
    ensures New(options.(diffuse := Some(v))) == New(options).(diffuse := v)
    ensures New(options.(roughness := Some(x))) == New(options).(roughness := x)
    ensures New(options.(emissive := Some(v))) == New(options).(emissive := v)
  {
  }

  /** `toArray()`: position, radius, diffuse, roughness, emissive, one zero pad. */
  function ToArray(s: Sphere): (r: seq<real>)
    ensures |r| == RecordFloats && |r| * FloatBytes == Size
    ensures Vec3At(r, PositionAt) == s.position && r[RadiusAt] == s.radius
    ensures Vec3At(r, DiffuseAt) == s.diffuse && r[RoughnessAt] == s.roughness
    ensures Vec3At(r, EmissiveAt) == s.emissive
    ensures r[PadAt] == 0.0
  {
    Spread(s.position) + [s.radius] + Spread(s.diffuse) + [s.roughness] + Spread(s.emissive) + [0.0]
  }

  /** Reads a record back from the field offsets; only a 12-float record with
      a zero pad is one that `ToArray` can produce. */
  function FromArray(r: seq<real>): Option<Sphere> {
    if |r| == RecordFloats && r[PadAt] == 0.0 then
      Some(Sphere(Vec3At(r, PositionAt), r[RadiusAt], Vec3At(r, DiffuseAt),
                  r[RoughnessAt], Vec3At(r, EmissiveAt)))
    else None
  }

  /** Decoding a serialised sphere recovers every field. */
  lemma RoundTrip(s: Sphere)
    ensures FromArray(ToArray(s)) == Some(s)
  {
  }

  /** Every record that decodes is the serialisation of what it decodes to. */
  lemma FromArrayCanonical(r: seq<real>, s: Sphere)
    requires FromArray(r) == Some(s)
    ensures ToArray(s) == r
  {
  }

  /** The spheres laid end to end, in list order. */
  function Pack(ss: seq<Sphere>): seq<real> {
    PackRecords(ss, ToArray)
  }

  /** The sphere at `index` of a packed array, decoded from the record layout. */
  function At(flat: seq<real>, index: nat): Option<Sphere> {
    RecordAt(flat, RecordFloats, index, FromArray)
  }

  /** The exported sample `spheres`: blue, red, reflective, ground and three lights. */
  function Samples(): (r: seq<Sphere>)
    ensures |r| == 7
    ensures forall i | 0 <= i < 7 :: r[i].radius > 0.0
    ensures forall i | 0 <= i < 4 :: r[i].emissive == Zero3
    ensures forall i | 4 <= i < 7 :: r[i].diffuse == Zero3 && r[i].emissive != Zero3
  {
    [
      New(SphereOptions(Some(Vec3(-4.0, 0.0, 0.0)), Some(0.8), Some(Vec3(0.3, 0.5, 1.0)), Some(0.7), Some(Vec3(0.0, 0.0, 0.0)))),
      New(SphereOptions(Some(Vec3(-0.2, 0.0, 0.0)), Some(0.4), Some(Vec3(1.0, 0.3, 0.3)), Some(0.99), Some(Vec3(0.0, 0.0, 0.0)))),
      New(SphereOptions(Some(Vec3(3.0, 0.0, 0.0)), Some(1.5), Some(Vec3(0.8, 0.8, 0.6)), Some(0.1), Some(Vec3(0.0, 0.0, 0.0)))),
      New(SphereOptions(Some(Vec3(0.0, -500.0, 0.0)), Some(498.0), Some(Vec3(0.9, 0.9, 0.9)), Some(1.0), Some(Vec3(0.0, 0.0, 0.0)))),
      New(SphereOptions(Some(Vec3(-0.0, 2.0, 0.0)), Some(0.8), Some(Vec3(0.0, 0.0, 0.0)), Some(0.99), Some(Vec3(20.0, 20.0, 10.0)))),
      New(SphereOptions(Some(Vec3(-2.0, -1.0, 5.0)), Some(0.5), Some(Vec3(0.0, 0.0, 0.0)), Some(0.99), Some(Vec3(20.0, 10.0, 20.0)))),
      New(SphereOptions(Some(Vec3(0.0, 0.0, -5.0)), Some(0.5), Some(Vec3(0.0, 0.0, 0.0)), Some(0.99), Some(Vec3(10.0, 20.0, 20.0))))
    ]
  }

  /** The packed sample list is 84 floats, with sphere `i` at float `12i`. */
  lemma {:induction false} SamplesLayout()
    ensures |Pack(Samples())| == 84
    ensures forall i: nat | i < |Samples()| :: At(Pack(Samples()), i) == Some(Samples()[i])
    ensures At(Pack(Samples()), 7) == None
  {
    var list := Samples();
    forall x: Sphere ensures FromArray(ToArray(x)) == Some(x) {
      RoundTrip(x);
    }
    forall i: nat | i < |list|
      ensures At(Pack(list), i) == Some(list[i])
    {
      PackedRecordLayout(list, ToArray, FromArray, RecordFloats, i);
    }
    PackedPastEnd(list, ToArray, FromArray, RecordFloats, 7);
    PackedRecordLayout(list, ToArray, FromArray, RecordFloats, 0);
  }
}
