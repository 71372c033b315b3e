/** Materials (src/materials.ts): a record of surface parameters with
    constructor defaults, serialised as three 4-float vectors. The position of
    a material in the registry is the index the compute kernel uses for it. */
module Materials {
  import opened Generic

  datatype Material = Material(
    diffuse: Vec3,
    roughness: real,
    specular: Vec3,
    metalness: real,
    emissive: Vec3)

  /** `Partial<MaterialOptions>`: every property may be left out. */
  datatype MaterialOptions = MaterialOptions(
    diffuse: Option<Vec3>,
    roughness: Option<real>,
    specular: Option<Vec3>,
    metalness: Option<real>,
    emissive: Option<Vec3>)

  const NoOptions := MaterialOptions(None, None, None, None, None)

  /** The field initialisers of `class Material`. */
  const Default := Material(Zero3, 0.0, Zero3, 0.0, Zero3)

  /** `Material.size`, in bytes. */
  const Size: nat := 3 * Vec4Size
  /** Floats in one serialised record. */
  const RecordFloats: nat := 12

  // Float offsets of the fields within a record.
  const DiffuseAt: nat := 0
  const RoughnessAt: nat := 3
  const SpecularAt: nat := 4
  const MetalnessAt: nat := 7
  const EmissiveAt: nat := 8
  const PadAt: nat := 11

  /** `new Material(options)`: the defaults, overwritten by the supplied options. */
  function New(options: MaterialOptions): (r: Material)
    ensures options.diffuse.Some? ==> r.diffuse == options.diffuse.value
    ensures options.diffuse.None? ==> r.diffuse == Default.diffuse
    ensures options.roughness.Some? ==> r.roughness == options.roughness.value
    ensures options.roughness.None? ==> r.roughness == Default.roughness
    ensures options.specular.Some? ==> r.specular == options.specular.value
    ensures options.specular.None? ==> r.specular == Default.specular
    ensures options.metalness.Some? ==> r.metalness == options.metalness.value
    ensures options.metalness.None? ==> r.metalness == Default.metalness
    ensures options.emissive.Some? ==> r.emissive == options.emissive.value
    ensures options.emissive.None? ==> r.emissive == Default.emissive
  {
    Material(
      options.diffuse.GetOr(Default.diffuse),
      options.roughness.GetOr(Default.roughness),
      options.specular.GetOr(Default.specular),
      options.metalness.GetOr(Default.metalness),
      options.emissive.GetOr(Default.emissive))
  }

  /** Omitted options leave every field at its default. */
  lemma NewWithoutOptions()
    ensures New(NoOptions) == Default
    ensures Default.roughness == 0.0 && Default.metalness == 0.0
    ensures Default.diffuse == Default.specular == Default.emissive == Zero3
  {
  }

  /** A supplied option overrides its own field and no other. */
  lemma NewOverridesOnlyItsField(options: MaterialOptions, v: Vec3, x: real)
    ensures New(options.(diffuse := Some(v))) == New(options).(diffuse := v)
    ensures New(options.(roughness := Some(x))) == New(options).(roughness := x)
    ensures New(options.(specular := Some(v))) == New(options).(specular := v)
    ensures New(options.(metalness := Some(x))) == New(options).(metalness := x)
    ensures New(options.(emissive := Some(v))) == New(options).(emissive := v)
  {
  }

  /** `toArray()`: diffuse, roughness, specular, metalness, emissive, one zero pad. */
  function ToArray(m: Material): (r: seq<real>)
    ensures |r| == RecordFloats && |r| * FloatBytes == Size
    ensures Vec3At(r, DiffuseAt) == m.diffuse && r[RoughnessAt] == m.roughness
    ensures Vec3At(r, SpecularAt) == m.specular && r[MetalnessAt] == m.metalness
    ensures Vec3At(r, EmissiveAt) == m.emissive
    ensures r[PadAt] == 0.0
  {
    Spread(m.diffuse) + [m.roughness] + Spread(m.specular) + [m.metalness] + Spread(m.emissive) + [0.0]
  }

  /** Reads a record back from the field offsets; only a 12-float record with
      a zero pad is one that `ToArray` can produce. */
  function FromArray(r: seq<real>): Option<Material> {
    if |r| == RecordFloats && r[PadAt] == 0.0 then
      Some(Material(Vec3At(r, DiffuseAt), r[RoughnessAt], Vec3At(r, SpecularAt),
                    r[MetalnessAt], Vec3At(r, EmissiveAt)))
    else None
  }

  /** Decoding a serialised material recovers every field. */
  lemma RoundTrip(m: Material)
    ensures FromArray(ToArray(m)) == Some(m)
  {
  }

  /** Every record that decodes is the serialisation of what it decodes to. */
  lemma FromArrayCanonical(r: seq<real>, m: Material)
    requires FromArray(r) == Some(m)
    ensures ToArray(m) == r
  {
  }

  /** The materials laid end to end, in list order. */
  function Pack(ms: seq<Material>): seq<real> {
    PackRecords(ms, ToArray)
  }

  /** The material at `index` of a packed array, decoded from the record layout. */
  function At(flat: seq<real>, index: nat): Option<Material> {
    RecordAt(flat, RecordFloats, index, FromArray)
  }

  /** The exported `materials` registry. */
  function Registry(): (r: seq<Material>)
    ensures |r| == 7
    ensures forall i | 0 <= i < 4 :: r[i].emissive == Zero3
    ensures forall i | 4 <= i < 7 :: r[i].diffuse == Zero3 && r[i].specular == Zero3 && r[i].emissive != Zero3
  {
    [
      New(MaterialOptions(Some(Vec3(0.3, 0.5, 1.0)), Some(0.7), Some(Vec3(1.0, 1.0, 1.0)), Some(0.0), Some(Vec3(0.0, 0.0, 0.0)))),
      New(MaterialOptions(Some(Vec3(1.0, 0.3, 0.3)), Some(0.99), Some(Vec3(1.0, 1.0, 1.0)), Some(0.0), Some(Vec3(0.0, 0.0, 0.0)))),
      New(MaterialOptions(Some(Vec3(0.8, 0.8, 0.6)), Some(0.1), Some(Vec3(0.8, 0.8, 0.6)), Some(1.0), Some(Vec3(0.0, 0.0, 0.0)))),
      New(MaterialOptions(Some(Vec3(0.9, 0.9, 0.9)), Some(1.0), Some(Vec3(1.0, 1.0, 1.0)), Some(0.0), Some(Vec3(0.0, 0.0, 0.0)))),
      New(MaterialOptions(Some(Vec3(0.0, 0.0, 0.0)), Some(1.0), Some(Vec3(0.0, 0.0, 0.0)), Some(0.0), Some(Vec3(20.0, 20.0, 10.0)))),
      New(MaterialOptions(Some(Vec3(0.0, 0.0, 0.0)), Some(1.0), Some(Vec3(0.0, 0.0, 0.0)), Some(0.0), Some(Vec3(20.0, 10.0, 20.0)))),
      New(MaterialOptions(Some(Vec3(0.0, 0.0, 0.0)), Some(1.0), Some(Vec3(0.0, 0.0, 0.0)), Some(0.0), Some(Vec3(10.0, 20.0, 20.0))))
    ]
  }

  /** The packed registry is 84 floats, and registry position `i` is material index `i`. */
  lemma {:induction false} RegistryLayout()
    ensures |Pack(Registry())| == 84
    ensures forall i: nat | i < |Registry()| :: At(Pack(Registry()), i) == Some(Registry()[i])
    ensures At(Pack(Registry()), 7) == None
  {
    var list := Registry();
    forall x: Material ensures FromArray(ToArray(x)) == Some(x) {
      RoundTrip(x);
    }
    forall i: nat | i < |list|
      ensures At(Pack(list), i) == Some(list[i])
    {
      PackedRecordLayout(list, ToArray, FromArray, RecordFloats, i);
    }
    PackedPastEnd(list, ToArray, FromArray, RecordFloats, 7);
    PackedRecordLayout(list, ToArray, FromArray, RecordFloats, 0);
  }
}
