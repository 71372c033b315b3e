/** The camera of src/camera.ts: its option defaults, its four derived
    matrices, and the 40-float (160-byte) uniform buffer it writes for the
    compute kernel. The buffer layout is
      floats 0..15   inverse view matrix
      floats 16..31  inverse projection matrix
      floats 32..35  width, height, near, far
      float  36      timestep
      floats 37..39  padding, never written. */
module Cameras {
  import opened Generic

  const MatrixFloats: nat := 16

  /** A gl-matrix `mat4`: 16 floats, treated as opaque. */
  type Mat4 = m: seq<real> | |m| == MatrixFloats witness seq(16, _ => 0.0)

  /** `mat4.create()`. */
  const Identity: Mat4 := [1.0, 0.0, 0.0, 0.0,
                           0.0, 1.0, 0.0, 0.0,
                           0.0, 0.0, 1.0, 0.0,
                           0.0, 0.0, 0.0, 1.0]

  /** The gl-matrix routines the camera calls: `mat4.perspective` (given the
      width and height whose quotient is the aspect ratio), `mat4.lookAt` and
      `mat4.invert`. Their numerics are not part of this model. */
  datatype MatrixLib = MatrixLib(
    perspective: (real, real, real, real, real) -> Mat4,
    lookAt: (Vec3, Vec3, Vec3) -> Mat4,
    invert: Mat4 -> Mat4)

  /** `Partial<CameraOptions>`: every property may be left out. */
  datatype CameraOptions = CameraOptions(
    position: Option<Vec3>,
    target: Option<Vec3>,
    up: Option<Vec3>,
    fovy: Option<real>,
    width: Option<real>,
    height: Option<real>,
    near: Option<real>,
    far: Option<real>)

  /** `Math.PI`, as JavaScript prints it. */
  const MathPi: real := 3.141592653589793

  // The field initialisers of `class Camera`.
  const DefaultPosition := Zero3
  const DefaultTarget := Zero3
  const DefaultUp := Vec3(0.0, 1.0, 0.0)
  const DefaultFovy: real := (2.0 * MathPi) / 5.0
  const DefaultWidth: real := 1.0
  const DefaultHeight: real := 1.0
  const DefaultNear: real := 0.01
  const DefaultFar: real := 100.0

  // ---------------------------------------------------------------------
  // Uniform buffer layout

  /** The size `makeBuffer` requests: two matrices and two more vectors. */
  const BufferBytes: nat := (4 + 4 + 2) * Vec4Size
  const BufferFloats: nat := 40
  /** The floats `updateBuffer` writes. */
  const UniformFloats: nat := 36
  /** The byte offset `updateTimestep` writes at. */
  const TimestepByteOffset: nat := Vec4Size * 9

  // Float offsets of the fields.
  const IViewAt: nat := 0
  const IProjectionAt: nat := 16
  const WidthAt: nat := 32
  const HeightAt: nat := 33
  const NearAt: nat := 34
  const FarAt: nat := 35
  const TimestepAt: nat := 36

  /** The buffer size is 40 floats, and the timestep's byte offset is float 36. */
  lemma BufferGeometry()
    ensures BufferBytes == 160 && FloatIndex(BufferBytes) == BufferFloats
    ensures FloatIndex(TimestepByteOffset) == TimestepAt
    ensures UniformFloats == TimestepAt && TimestepAt + 1 < BufferFloats
  {
  }

  /** The array `updateBuffer` writes at offset 0. */
  function UniformArray(iView: Mat4, iProjection: Mat4, width: real, height: real, near: real, far: real): (r: seq<real>)
    ensures |r| == UniformFloats
    ensures r[IViewAt .. IViewAt + MatrixFloats] == iView
    ensures r[IProjectionAt .. IProjectionAt + MatrixFloats] == iProjection
    ensures r[WidthAt] == width && r[HeightAt] == height && r[NearAt] == near && r[FarAt] == far
  {
    iView + iProjection + [width, height, near, far]
  }

  /** The array `makeBuffer` copies into the fresh buffer: the same 36 floats
      as `updateBuffer`, then a zero timestep. */
  function InitialArray(iView: Mat4, iProjection: Mat4, width: real, height: real, near: real, far: real): (r: seq<real>)
    ensures |r| == UniformFloats + 1 && |r| <= BufferFloats
    ensures r[..UniformFloats] == UniformArray(iView, iProjection, width, height, near, far)
    ensures r[TimestepAt] == 0.0
  {
    iView + iProjection + [width, height, near, far, 0.0]
  }

  /** The contents of a buffer created with `mappedAtCreation`: all zero. */
  function Zeros(n: nat): (r: seq<real>)
    ensures |r| == n && forall j | 0 <= j < n :: r[j] == 0.0
  {
    seq(n, _ => 0.0)
  }

  /** `writeBuffer(buffer, offset, data)` / `set(data, offset)` on the float
      contents: `data` replaces the floats from `at` on, nothing else changes. */
  function Overwrite(s: seq<real>, at: nat, data: seq<real>): (r: seq<real>)
    requires at + |data| <= |s|
    ensures |r| == |s| && r[at .. at + |data|] == data
    ensures forall j | 0 <= j < |s| && !(at <= j < at + |data|) :: r[j] == s[j]
  {
    s[..at] + data + s[at + |data|..]
  }

  /** The buffer right after `makeBuffer`. */
  function InitialBuffer(iView: Mat4, iProjection: Mat4, width: real, height: real, near: real, far: real): seq<real> {
    Overwrite(Zeros(BufferFloats), 0, InitialArray(iView, iProjection, width, height, near, far))
  }

  /** What the kernel reads from a uniform buffer. */
  datatype Uniform = Uniform(
    iView: Mat4,
    iProjection: Mat4,
    width: real,
    height: real,
    near: real,
    far: real,
    timestep: real)

  /** Reads the fields back from their offsets. */
  function Decode(buf: seq<real>): Option<Uniform> {
    if |buf| == BufferFloats then
      Some(Uniform(buf[IViewAt .. IViewAt + MatrixFloats], buf[IProjectionAt .. IProjectionAt + MatrixFloats],
                   buf[WidthAt], buf[HeightAt], buf[NearAt], buf[FarAt], buf[TimestepAt]))
    else None
  }

  /** A fresh buffer holds the serialised fields, timestep 0, and zero padding. */
  lemma {:induction false} InitialBufferLayout(iView: Mat4, iProjection: Mat4, width: real, height: real, near: real, far: real)
    ensures var buf := InitialBuffer(iView, iProjection, width, height, near, far);
      Decode(buf) == Some(Uniform(iView, iProjection, width, height, near, far, 0.0)) &&
      buf[TimestepAt + 1..] == [0.0, 0.0, 0.0]
  {
    var init := InitialArray(iView, iProjection, width, height, near, far);
    var buf := InitialBuffer(iView, iProjection, width, height, near, far);
    assert buf[..UniformFloats + 1] == init;
    assert buf[IViewAt .. IViewAt + MatrixFloats] == init[..UniformFloats][IViewAt .. IViewAt + MatrixFloats];
    assert buf[IProjectionAt .. IProjectionAt + MatrixFloats] == init[..UniformFloats][IProjectionAt .. IProjectionAt + MatrixFloats];
  }

  /** `updateBuffer` replaces every field but the timestep, and the timestep
      and padding (floats 36..39) are left as they were. */
  lemma {:induction false} UpdateKeepsTimestep(s: seq<real>, iView: Mat4, iProjection: Mat4, width: real, height: real, near: real, far: real)
    requires |s| == BufferFloats
    ensures var t := Overwrite(s, 0, UniformArray(iView, iProjection, width, height, near, far));
      t[UniformFloats..] == s[UniformFloats..] &&
      Decode(t) == Some(Uniform(iView, iProjection, width, height, near, far, s[TimestepAt]))
  {
    var u := UniformArray(iView, iProjection, width, height, near, far);
    var t := Overwrite(s, 0, u);
    assert t[..UniformFloats] == u;
    assert t[IViewAt .. IViewAt + MatrixFloats] == u[IViewAt .. IViewAt + MatrixFloats];
    assert t[IProjectionAt .. IProjectionAt + MatrixFloats] == u[IProjectionAt .. IProjectionAt + MatrixFloats];
  }

  /** `updateTimestep` changes the timestep and nothing else: float 35 (far)
      and the matrices keep their values. */
  lemma {:induction false} TimestepOnly(s: seq<real>, timestep: real)
    requires |s| == BufferFloats
    ensures var t := Overwrite(s, FloatIndex(TimestepByteOffset), [timestep]);
      (forall j | 0 <= j < BufferFloats && j != TimestepAt :: t[j] == s[j]) &&
      Decode(t) == Some(Decode(s).value.(timestep := timestep))
  {
    var t := Overwrite(s, TimestepAt, [timestep]);
    assert t[..TimestepAt] == s[..TimestepAt];
    assert t[IViewAt .. IViewAt + MatrixFloats] == s[IViewAt .. IViewAt + MatrixFloats];
    assert t[IProjectionAt .. IProjectionAt + MatrixFloats] == s[IProjectionAt .. IProjectionAt + MatrixFloats];
  }

  /** The two writes cover disjoint floats, so their order does not matter. */
  lemma WritesCommute(s: seq<real>, uniform: seq<real>, timestep: real)
    requires |s| == BufferFloats && |uniform| == UniformFloats
    ensures Overwrite(Overwrite(s, 0, uniform), TimestepAt, [timestep])
         == Overwrite(Overwrite(s, TimestepAt, [timestep]), 0, uniform)
  {
  }

  /** Updating a fresh buffer from unchanged fields leaves it as it was. */
  lemma UpdateAfterMake(iView: Mat4, iProjection: Mat4, width: real, height: real, near: real, far: real)
    ensures var buf := InitialBuffer(iView, iProjection, width, height, near, far);
      Overwrite(buf, 0, UniformArray(iView, iProjection, width, height, near, far)) == buf
  {
  }

  /** `writeBuffer(buffer, byteOffset, data)`: a slice write at a 4-byte aligned offset. */
  method WriteBuffer(buf: array<real>, byteOffset: nat, data: seq<real>)
    requires byteOffset % FloatBytes == 0 && FloatIndex(byteOffset) + |data| <= buf.Length
    modifies buf
    ensures buf[..] == Overwrite(old(buf[..]), FloatIndex(byteOffset), data)
  {
    var at := FloatIndex(byteOffset);
    forall j | 0 <= j < |data| {
      buf[at + j] := data[j];
    }
    assert buf[at .. at + |data|] == data;
    assert buf[..] == old(buf[..])[..at] + data + old(buf[..])[at + |data|..];
  }

  class Camera {
    var position: Vec3
    var target: Vec3
    var up: Vec3
    var projectionMatrix: Mat4
    var iProjectionMatrix: Mat4
    var viewMatrix: Mat4
    var iViewMatrix: Mat4
    var fovy: real
    var width: real
    var height: real
    var near: real
    var far: real
    /** The GPU uniform buffer's float contents; null until `MakeBuffer`. */
    var buffer: array?<real>

    ghost predicate Valid()
      reads this
    {
      buffer != null ==> buffer.Length == BufferFloats
    }

    /** The four matrices are the ones the library derives from the current fields. */
    ghost predicate MatricesFrom(lib: MatrixLib)
      reads this
    {
      projectionMatrix == lib.perspective(fovy, width, height, near, far) &&
      viewMatrix == lib.lookAt(position, target, up) &&
      iViewMatrix == lib.invert(viewMatrix) &&
      iProjectionMatrix == lib.invert(projectionMatrix)
    }

    /** The 36 floats `updateBuffer` writes for the current state. */
    function Serialized(): seq<real>
      reads this
    {
      UniformArray(iViewMatrix, iProjectionMatrix, width, height, near, far)
    }

    /** `new Camera(options)`: defaults, overwritten by the supplied options,
        then `updateMatrices()`. No buffer exists yet. */
    constructor (options: CameraOptions, lib: MatrixLib)
      ensures position == options.position.GetOr(DefaultPosition)
      ensures target == options.target.GetOr(DefaultTarget)
      ensures up == options.up.GetOr(DefaultUp)
      ensures fovy == options.fovy.GetOr(DefaultFovy)
      ensures width == options.width.GetOr(DefaultWidth)
      ensures height == options.height.GetOr(DefaultHeight)
      ensures near == options.near.GetOr(DefaultNear)
      ensures far == options.far.GetOr(DefaultFar)
      ensures MatricesFrom(lib)
      ensures buffer == null && Valid()
    {
      position := options.position.GetOr(DefaultPosition);
      target := options.target.GetOr(DefaultTarget);
      up := options.up.GetOr(DefaultUp);
      fovy := options.fovy.GetOr(DefaultFovy);
      width := options.width.GetOr(DefaultWidth);
      height := options.height.GetOr(DefaultHeight);
      near := options.near.GetOr(DefaultNear);
      far := options.far.GetOr(DefaultFar);
      projectionMatrix, iProjectionMatrix := Identity, Identity;
      viewMatrix, iViewMatrix := Identity, Identity;
      buffer := null;
      new;
      UpdateMatrices(lib);
    }

    /** `updateMatrices()`: recomputes projection and view, then both inverses,
        from the current fields; it changes nothing else. */
    method UpdateMatrices(lib: MatrixLib)
      modifies this`projectionMatrix, this`viewMatrix, this`iViewMatrix, this`iProjectionMatrix
      ensures MatricesFrom(lib)
    {
      projectionMatrix := lib.perspective(fovy, width, height, near, far);
      viewMatrix := lib.lookAt(position, target, up);
      iViewMatrix := lib.invert(viewMatrix);
      iProjectionMatrix := lib.invert(projectionMatrix);
    }

    /** `makeBuffer()`: a fresh zeroed 160-byte buffer holding the serialised
        fields and timestep 0. */
    method MakeBuffer()
      modifies this`buffer
      ensures fresh(buffer) && Valid()
      ensures buffer[..] == InitialBuffer(iViewMatrix, iProjectionMatrix, width, height, near, far)
      ensures Decode(buffer[..]) == Some(Uniform(iViewMatrix, iProjectionMatrix, width, height, near, far, 0.0))
    {
      var b := new real[FloatIndex(BufferBytes)](_ => 0.0);
      assert b[..] == Zeros(BufferFloats);
      WriteBuffer(b, 0, InitialArray(iViewMatrix, iProjectionMatrix, width, height, near, far));
      buffer := b;
      InitialBufferLayout(iViewMatrix, iProjectionMatrix, width, height, near, far);
    }

    /** `updateBuffer()`: throws when there is no buffer; otherwise rewrites
        floats 0..35 from the current state and keeps the timestep. */
    method UpdateBuffer() returns (outcome: Outcome)
      requires Valid()
      modifies buffer
      ensures buffer == old(buffer) && Valid()
      ensures old(buffer) == null ==> outcome == Fail("No camera buffer to update")
      ensures old(buffer) != null ==>
        outcome == Pass &&
        buffer[..] == Overwrite(old(buffer[..]), 0, Serialized()) &&
        Decode(buffer[..]) == Some(Uniform(iViewMatrix, iProjectionMatrix, width, height, near, far, old(buffer[TimestepAt])))
    {
      if buffer == null {
        return Fail("No camera buffer to update");
      }
      ghost var before := buffer[..];
      WriteBuffer(buffer, 0, Serialized());
      UpdateKeepsTimestep(before, iViewMatrix, iProjectionMatrix, width, height, near, far);
      outcome := Pass;
    }

    /** `updateTimestep(timestep)`: writes float 36 (byte 144) and nothing else;
        without a buffer the write is rejected. */
    method UpdateTimestep(timestep: real) returns (outcome: Outcome)
      requires Valid()
      modifies buffer
      ensures buffer == old(buffer) && Valid()
      ensures old(buffer) == null ==> outcome.Fail?
      ensures old(buffer) != null ==>
        outcome == Pass &&
        buffer[..] == Overwrite(old(buffer[..]), TimestepAt, [timestep]) &&
        Decode(buffer[..]) == Some(old(Decode(buffer[..])).value.(timestep := timestep))
    {
      if buffer == null {
        return Fail("writeBuffer needs a buffer");
      }
      ghost var before := buffer[..];
      WriteBuffer(buffer, TimestepByteOffset, [timestep]);
      TimestepOnly(before, timestep);
      outcome := Pass;
    }
  }
}
