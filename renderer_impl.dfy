/**
  `GsplatRendererImpl`: the GPU buffers of one drawable (positions, scales, rotations, colours,
  spherical-harmonics coefficients and the sort order), the sorter resource built on them, the
  material property block that binds them, and the guarded draw.
*/
module RendererImpl {
  import opened Wrappers
  import opened Ints
  import opened Graphics
  import opened SorterResource

  /** `Marshal.SizeOf` of `Vector3` and `Vector4`, and `sizeof(uint)`. */
  const Vector3Size: nat := 12
  const Vector4Size: nat := 16
  const UintSize: nat := 4

  /** Property-block names. */
  const OrderBufferId := "_OrderBuffer"
  const PositionBufferId := "_PositionBuffer"
  const ScaleBufferId := "_ScaleBuffer"
  const RotationBufferId := "_RotationBuffer"
  const ColorBufferId := "_ColorBuffer"
  const ShBufferId := "_SHBuffer"
  const MatrixMId := "_MATRIX_M"
  const SplatInstanceSizeId := "_SplatInstanceSize"
  const SplatCountId := "_SplatCount"
  const GammaToLinearId := "_GammaToLinear"
  const ShDegreeId := "_SHDegree"

  /**
    Spherical-harmonics coefficients per splat beyond the base colour for `bands` bands,
    `(bands + 1)^2 - 1`; the helper that computes it is not part of this model.
  */
  function CoefficientCount(bands: int): int
  {
    (bands + 1) * (bands + 1) - 1
  }

  /** A value held by the material property block. */
  datatype BlockValue = BufferValue(buffer: GraphicsBuffer?) | IntValue(n: int) | MatrixValue(m: Matrix)

  /**
    What `Render` reads from the settings and the sorter singletons: whether each is valid, the
    settings' material array (None for a null array) and the instance size.
  */
  datatype Environment = Environment(
    settingsValid: bool, materials: Option<seq<Material>>, instanceSize: uint32, sorterValid: bool)

  /** How a `Render` call ends: no draw, a draw with a material, or one of the two exceptions of `Materials[SHBands]`. */
  datatype RenderOutcome = Skipped | Drawn(material: Material) | NullMaterials | MaterialOutOfRange

  /** `Materials[bands]`, with the null array and an index past its end as faults. */
  function MaterialFor(materials: Option<seq<Material>>, bands: byte): (o: RenderOutcome)
    ensures o.Drawn? <==> materials.Some? && bands < |materials.value|
    ensures o.Drawn? ==> o.material == materials.value[bands]
    ensures o != Skipped
  {
    match materials
    case None => NullMaterials
    case Some(ms) => if bands < |ms| then Drawn(ms[bands]) else MaterialOutOfRange
  }

  /** `b?.Dispose()` for every buffer of `bs`. */
  method ReleaseAll(bs: seq<GraphicsBuffer?>)
    modifies Present(bs)
    ensures forall b :: b in Present(bs) ==> b.released
  {
    for i := 0 to |bs|
      invariant forall j :: 0 <= j < i && bs[j] != null ==> bs[j].released
    {
      PresentHas(bs, i);
      if bs[i] != null {
        bs[i].Release();
      }
    }
  }

  class GsplatRendererImpl {
    var splatCount: uint32
    var shBands: byte
    var block: map<string, BlockValue>
    var positionBuffer: GraphicsBuffer?
    var scaleBuffer: GraphicsBuffer?
    var rotationBuffer: GraphicsBuffer?
    var colorBuffer: GraphicsBuffer?
    var shBuffer: GraphicsBuffer?
    var orderBuffer: GraphicsBuffer?
    var sorterResource: Resource?

    /** The four per-splat attribute buffers exist, and so does the SH buffer when there are SH bands. */
    predicate Valid()
      reads this
    {
      && positionBuffer != null && scaleBuffer != null && rotationBuffer != null && colorBuffer != null
      && (shBands == 0 || shBuffer != null)
    }

    function BufferFields(): seq<GraphicsBuffer?>
      reads this
    {
      [positionBuffer, scaleBuffer, rotationBuffer, colorBuffer, shBuffer, orderBuffer]
    }

    /** Everything `Dispose` may release. */
    function Footprint(): set<object>
      reads this, sorterResource
    {
      Present(BufferFields()) + (if sorterResource != null then {sorterResource} + sorterResource.Owned() else {})
    }

    /**
      The state `CreateResources` and `CreatePropertyBlock` leave: live buffers of `splatCount`
      elements of the right element sizes, an SH buffer of `CoefficientCount(shBands) * splatCount`
      elements (C# `int` product) when there are SH bands, a sorter resource over this impl's own
      position and order buffers, and the property block binding every buffer.
    */
    predicate Built()
      reads this, positionBuffer, scaleBuffer, rotationBuffer, colorBuffer, shBuffer, orderBuffer
    {
      && positionBuffer != null && scaleBuffer != null && rotationBuffer != null && colorBuffer != null
      && orderBuffer != null
      && positionBuffer.count == scaleBuffer.count == rotationBuffer.count == colorBuffer.count
         == orderBuffer.count == AsInt32(splatCount)
      && positionBuffer.stride == scaleBuffer.stride == Vector3Size
      && rotationBuffer.stride == colorBuffer.stride == Vector4Size && orderBuffer.stride == UintSize
      && !positionBuffer.released && !scaleBuffer.released && !rotationBuffer.released
      && !colorBuffer.released && !orderBuffer.released
      && (shBands > 0 ==> shBuffer != null && !shBuffer.released && shBuffer.stride == Vector3Size
                          && shBuffer.count == WrapInt32(CoefficientCount(shBands) * AsInt32(splatCount)))
      && sorterResource != null
      && sorterResource.positionBuffer == positionBuffer && sorterResource.orderBuffer == orderBuffer
      && Binds(OrderBufferId, orderBuffer)
      && Binds(PositionBufferId, positionBuffer)
      && Binds(ScaleBufferId, scaleBuffer)
      && Binds(RotationBufferId, rotationBuffer)
      && Binds(ColorBufferId, colorBuffer)
      && (shBands > 0 ==> Binds(ShBufferId, shBuffer))
    }

    /** The property block maps `name` to `v`. */
    predicate Binds(name: string, v: GraphicsBuffer?)
      reads this
    {
      name in block && block[name] == BufferValue(v)
    }

    lemma BuiltIsValid()
      requires Built()
      ensures Valid()
    {
    }

    /** Records the count and bands, creates the buffers and binds them. */
    constructor (splatCount: uint32, shBands: byte)
      ensures this.splatCount == splatCount && this.shBands == shBands
      ensures Built() && Valid()
      ensures shBands == 0 ==> shBuffer == null
      ensures fresh(Present(BufferFields())) && fresh(sorterResource)
    {
      this.splatCount := splatCount;
      this.shBands := shBands;
      block := map[];
      shBuffer := null;
      new;
      CreateResources(splatCount);
      CreatePropertyBlock();
    }

    /** Allocates the buffers for `count` splats and the sorter resource over them. */
    method CreateResources(count: uint32)
      modifies this`positionBuffer, this`scaleBuffer, this`rotationBuffer, this`colorBuffer,
        this`shBuffer, this`orderBuffer, this`sorterResource
      ensures positionBuffer != null && scaleBuffer != null && rotationBuffer != null
      ensures colorBuffer != null && orderBuffer != null && sorterResource != null
      ensures fresh(positionBuffer) && fresh(scaleBuffer) && fresh(rotationBuffer) && fresh(colorBuffer)
      ensures fresh(orderBuffer) && fresh(sorterResource)
      ensures positionBuffer.count == scaleBuffer.count == rotationBuffer.count == colorBuffer.count
              == orderBuffer.count == AsInt32(count)
      ensures positionBuffer.stride == scaleBuffer.stride == Vector3Size
      ensures rotationBuffer.stride == colorBuffer.stride == Vector4Size && orderBuffer.stride == UintSize
      ensures !positionBuffer.released && !scaleBuffer.released && !rotationBuffer.released
      ensures !colorBuffer.released && !orderBuffer.released
      ensures shBands > 0 ==>
        && shBuffer != null && fresh(shBuffer) && !shBuffer.released && shBuffer.stride == Vector3Size
        && shBuffer.count == WrapInt32(CoefficientCount(shBands) * AsInt32(count))
      ensures shBands == 0 ==> shBuffer == old(shBuffer)
      ensures sorterResource.positionBuffer == positionBuffer && sorterResource.orderBuffer == orderBuffer
    {
      var position, scale, rotation, color, order := NewSplatBuffers(count);
      if shBands > 0 {
        CreateShBuffer(count);
      }
      sorterResource := new Resource(count, position, order);
      positionBuffer, scaleBuffer, rotationBuffer, colorBuffer, orderBuffer := position, scale, rotation, color, order;
    }

    /** The per-splat position, scale, rotation, colour and order buffers, `count` entries each. */
    static method NewSplatBuffers(count: uint32)
      returns (position: GraphicsBuffer, scale: GraphicsBuffer, rotation: GraphicsBuffer, color: GraphicsBuffer,
               order: GraphicsBuffer)
      ensures fresh(position) && fresh(scale) && fresh(rotation) && fresh(color) && fresh(order)
      ensures position.count == scale.count == rotation.count == color.count == order.count == AsInt32(count)
      ensures position.stride == scale.stride == Vector3Size
      ensures rotation.stride == color.stride == Vector4Size && order.stride == UintSize
      ensures !position.released && !scale.released && !rotation.released && !color.released && !order.released
    {
      position := new GraphicsBuffer(AsInt32(count), Vector3Size);
      scale := new GraphicsBuffer(AsInt32(count), Vector3Size);
      rotation := new GraphicsBuffer(AsInt32(count), Vector4Size);
      color := new GraphicsBuffer(AsInt32(count), Vector4Size);
      order := new GraphicsBuffer(AsInt32(count), UintSize);
    }

    /** Allocates the SH buffer: `CoefficientCount(shBands)` three-float entries per splat, in `int` arithmetic. */
    method CreateShBuffer(count: uint32)
      modifies this`shBuffer
      ensures shBuffer != null && fresh(shBuffer) && !shBuffer.released && shBuffer.stride == Vector3Size
      ensures shBuffer.count == WrapInt32(CoefficientCount(shBands) * AsInt32(count))
    {
      shBuffer := new GraphicsBuffer(WrapInt32(CoefficientCount(shBands) * AsInt32(count)), Vector3Size);
    }

    /** Binds every buffer in the (reused) property block; the SH buffer only when there are SH bands. */
    method CreatePropertyBlock()
      modifies this`block
      ensures block == (var b := old(block)[OrderBufferId := BufferValue(orderBuffer)]
          [PositionBufferId := BufferValue(positionBuffer)][ScaleBufferId := BufferValue(scaleBuffer)]
          [RotationBufferId := BufferValue(rotationBuffer)][ColorBufferId := BufferValue(colorBuffer)];
        if shBands > 0 then b[ShBufferId := BufferValue(shBuffer)] else b)
    {
      block := block[OrderBufferId := BufferValue(orderBuffer)];
      block := block[PositionBufferId := BufferValue(positionBuffer)];
      block := block[ScaleBufferId := BufferValue(scaleBuffer)];
      block := block[RotationBufferId := BufferValue(rotationBuffer)];
      block := block[ColorBufferId := BufferValue(colorBuffer)];
      if shBands > 0 {
        block := block[ShBufferId := BufferValue(shBuffer)];
      }
    }

    /**
      Releases every buffer, disposes the sorter resource and nulls the six buffer fields, so the
      impl is no longer valid; the sorter resource stays referenced. A second call releases
      nothing new and leaves the same fields.
    */
    method Dispose()
      modifies this`positionBuffer, this`scaleBuffer, this`rotationBuffer, this`colorBuffer,
        this`shBuffer, this`orderBuffer, Footprint()
      ensures BufferFields() == [null, null, null, null, null, null] && !Valid()
      ensures forall b :: b in old(Present(BufferFields())) ==> b.released
      ensures sorterResource == old(sorterResource)
      ensures sorterResource != null ==>
        sorterResource.inputKeys == null && forall b :: b in old(sorterResource.Owned()) ==> b.released
    {
      ReleaseAll(BufferFields());
      if sorterResource != null {
        sorterResource.Dispose();
      }
      positionBuffer, scaleBuffer, rotationBuffer, colorBuffer, shBuffer, orderBuffer := null, null, null, null, null, null;
    }

    /**
      Nothing happens when neither the count nor the bands changed; otherwise the old buffers and
      the old sorter resource's buffers are released and fresh ones are built for the new count
      and bands.
    */
    method RecreateResources(count: uint32, bands: byte)
      modifies this, Footprint()
      ensures old(splatCount) == count && old(shBands) == bands ==> unchanged(this) && unchanged(old(Footprint()))
      ensures !(old(splatCount) == count && old(shBands) == bands) ==>
        && splatCount == count && shBands == bands && Built() && Valid()
        && (bands == 0 ==> shBuffer == null)
        && fresh(Present(BufferFields())) && fresh(sorterResource)
        && (forall b :: b in old(Present(BufferFields())) ==> b.released)
        && (old(sorterResource) != null ==> forall b :: b in old(sorterResource.Owned()) ==> b.released)
    {
      if splatCount == count && shBands == bands {
        return;
      }
      Dispose();
      Build(count, bands);
    }

    /** Records the new count and bands, allocates the buffers and binds them. */
    method Build(count: uint32, bands: byte)
      modifies this`splatCount, this`shBands, this`positionBuffer, this`scaleBuffer, this`rotationBuffer,
        this`colorBuffer, this`shBuffer, this`orderBuffer, this`sorterResource, this`block
      ensures splatCount == count && shBands == bands && Built() && Valid()
      ensures fresh(positionBuffer) && fresh(scaleBuffer) && fresh(rotationBuffer) && fresh(colorBuffer)
      ensures fresh(orderBuffer) && fresh(sorterResource)
      ensures bands > 0 ==> fresh(shBuffer)
      ensures bands == 0 ==> shBuffer == old(shBuffer)
    {
      splatCount := count;
      shBands := bands;
      CreateResources(count);
      CreatePropertyBlock();
    }

    /**
      Draws the splats with `Materials[shBands]` when the impl, the settings and the sorter are all
      valid, after setting the per-draw properties; otherwise does nothing.
    */
    method Render(count: uint32, localToWorld: Matrix, gammaToLinear: bool, shDegree: int, env: Environment)
      returns (outcome: RenderOutcome)
      modifies this`block
      ensures !(Valid() && env.settingsValid && env.sorterValid) ==> outcome == Skipped && block == old(block)
      ensures Valid() && env.settingsValid && env.sorterValid ==>
        && outcome == MaterialFor(env.materials, shBands)
        && block == old(block)[SplatCountId := IntValue(AsInt32(count))]
             [GammaToLinearId := IntValue(if gammaToLinear then 1 else 0)]
             [SplatInstanceSizeId := IntValue(AsInt32(env.instanceSize))]
             [ShDegreeId := IntValue(shDegree)][MatrixMId := MatrixValue(localToWorld)]
    {
      if !Valid() || !env.settingsValid || !env.sorterValid {
        return Skipped;
      }
      block := block[SplatCountId := IntValue(AsInt32(count))];
      block := block[GammaToLinearId := IntValue(if gammaToLinear then 1 else 0)];
      block := block[SplatInstanceSizeId := IntValue(AsInt32(env.instanceSize))];
      block := block[ShDegreeId := IntValue(shDegree)];
      block := block[MatrixMId := MatrixValue(localToWorld)];
      outcome := MaterialFor(env.materials, shBands);
    }
  }
}
