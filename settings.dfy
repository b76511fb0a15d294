/**
  `GsplatSettings`, the project-wide singleton: the splat shader and its four materials (one per
  spherical-harmonics band count), the sorting compute shader handed to the sorter, and the
  instanced quad mesh. `OnValidate` rebuilds exactly what changed since the last call; `OnEnable`
  rebuilds everything.
*/
module Settings {
  import opened Wrappers
  import opened Ints
  import opened Graphics
  import opened QuadMesh
  import opened Gsplat
  import opened RendererImpl

  /** The default number of quads per instance of the splat mesh. */
  const DefaultSplatInstanceSize: uint32 := 128

  /**
    The largest instance size whose index array (six entries per quad) fits in a .NET array,
    whose length is below 2^31. Below it, `4 * size`, `6 * i` and `(int)i * 4` do not wrap.
  */
  const MaxSplatInstanceSize := 357913941

  /** The number of materials, one per band count 0 to 3. */
  const MaterialCount := 4

  /** The shader keyword that selects `bands` bands of spherical harmonics: `SH_BANDS_0` to `SH_BANDS_3`. */
  function ShBandsKeyword(bands: nat): (k: string)
    requires bands < 10
    ensures |k| == 10 && k[..9] == "SH_BANDS_" && k[9] as int == '0' as int + bands
  {
    "SH_BANDS_" + [('0' as int + bands) as char]
  }

  /** Each band count has its own keyword. */
  lemma KeywordsDistinct(b: nat, c: nat)
    requires b < 10 && c < 10 && b != c
    ensures ShBandsKeyword(b) != ShBandsKeyword(c)
  {
    assert ShBandsKeyword(b)[9] != ShBandsKeyword(c)[9];
  }

  /**
    `Valid` as written: `Materials?.Length != 0` is also true when there is no material array at
    all, because `null != 0`.
  */
  predicate ValidAsWritten(materials: Option<seq<Material>>, meshAlive: bool, size: uint32)
  {
    (materials.None? || |materials.value| != 0) && meshAlive && size > 0
  }

  /** `Valid` as intended: there are materials to draw with, a live mesh and a positive instance size. */
  function IntendedValid(materials: Option<seq<Material>>, meshAlive: bool, size: uint32): (ok: bool)
    ensures ok ==> ValidAsWritten(materials, meshAlive, size)
    ensures ok <==> ValidAsWritten(materials, meshAlive, size) && materials.Some?
  {
    materials.Some? && |materials.value| != 0 && meshAlive && size > 0
  }

  /**
    With no shader there are no materials, yet the settings pass the check as written, and the
    renderer's `Materials[SHBands]` then dereferences null.
  */
  lemma NullMaterialsPassAsWritten(size: uint32, bands: byte)
    requires size > 0
    ensures ValidAsWritten(None, true, size)
    ensures MaterialFor(None, bands) == NullMaterials
  {
  }

  /** Settings valid as intended never make the renderer dereference a null material array. */
  lemma IntendedValidNeverNull(materials: Option<seq<Material>>, meshAlive: bool, size: uint32, bands: byte)
    requires IntendedValid(materials, meshAlive, size)
    ensures MaterialFor(materials, bands) != NullMaterials
    ensures bands < |materials.value| ==> MaterialFor(materials, bands) == Drawn(materials.value[bands])
  {
  }

  class GsplatSettings {
    var shader: Shader?
    var computeShader: ComputeShader?
    var splatInstanceSize: uint32
    var materials: Option<seq<Material>>
    var mesh: Mesh?
    var prevShader: Shader?
    var prevComputeShader: ComputeShader?
    var prevSplatInstanceSize: uint32

    /** A freshly loaded asset: the two shaders as serialized, nothing built yet. */
    constructor (shader: Shader?, computeShader: ComputeShader?)
      ensures this.shader == shader && this.computeShader == computeShader
      ensures splatInstanceSize == DefaultSplatInstanceSize && materials == None && mesh == null
      ensures prevShader == null && prevComputeShader == null && prevSplatInstanceSize == 0
    {
      this.shader := shader;
      this.computeShader := computeShader;
      splatInstanceSize := DefaultSplatInstanceSize;
      materials := None;
      mesh := null;
      prevShader := null;
      prevComputeShader := null;
      prevSplatInstanceSize := 0;
    }

    /** The mesh exists and has not been destroyed (Unity's truth test on an object). */
    predicate MeshAlive()
      reads this`mesh, mesh
    {
      mesh != null && !mesh.destroyed
    }

    /** `Valid`, as intended (see `ValidAsWritten` for the check the source makes). */
    predicate Valid()
      reads this`materials, this`mesh, this`splatInstanceSize, mesh
    {
      IntendedValid(materials, MeshAlive(), splatInstanceSize)
    }

    /**
      What the renderer reads from the settings and the sorter each frame. The settings' validity
      is the corrected check: it differs from the check as written only on a missing material array.
    */
    function Env(sorter: GsplatSorter): (env: Environment)
      reads this`materials, this`mesh, this`splatInstanceSize, mesh, sorter`sortPass, sorter.sortPass
      ensures env.settingsValid <==> Valid()
      ensures env.settingsValid <==> ValidAsWritten(materials, MeshAlive(), splatInstanceSize) && materials.Some?
      ensures env.materials == materials && env.instanceSize == splatInstanceSize
      ensures env.sorterValid <==> sorter.Valid()
    {
      Environment(Valid(), materials, splatInstanceSize, sorter.Valid())
    }

    /** Four live materials over `shader`, material `b` carrying exactly the keyword for `b` bands. */
    predicate MaterialsFor(s: Shader)
      reads this`materials, if materials.Some? then set m | m in materials.value else {}
    {
      && materials.Some? && |materials.value| == MaterialCount
      && forall b :: 0 <= b < MaterialCount ==>
           var m := materials.value[b];
           m.shader == s && m.keywords == {ShBandsKeyword(b)} && !m.destroyed
    }

    /** The objects `CreateMaterials` may destroy. */
    function OldMaterials(): set<Material>
      reads this`materials
    {
      if materials.Some? then set m | m in materials.value else {}
    }

    /**
      Destroys the current materials, then builds four new ones over the shader, material `b`
      with the keyword for `b` bands, or leaves none when there is no shader.
    */
    method CreateMaterials()
      modifies this`materials, OldMaterials()
      ensures forall m :: m in old(OldMaterials()) ==> m.destroyed
      ensures shader == null ==> materials == None
      ensures shader != null ==> MaterialsFor(shader) && forall m :: m in OldMaterials() ==> fresh(m)
      ensures shader != null ==>
        forall b, c :: 0 <= b < c < MaterialCount ==> materials.value[b] != materials.value[c]
    {
      if materials.Some? {
        var previous := materials.value;
        for k := 0 to |previous|
          invariant forall j :: 0 <= j < k ==> previous[j].destroyed
        {
          previous[k].Destroy();
        }
      }
      if shader == null {
        materials := None;
        return;
      }
      var built: seq<Material> := [];
      for b := 0 to MaterialCount
        invariant |built| == b
        invariant forall j :: 0 <= j < b ==> fresh(built[j])
        invariant forall j :: 0 <= j < b ==> built[j].shader == shader && built[j].keywords == {ShBandsKeyword(j)} && !built[j].destroyed
        invariant forall i, j :: 0 <= i < j < b ==> built[i] != built[j]
        invariant forall m :: m in old(OldMaterials()) ==> m.destroyed
      {
        var m := new Material(shader);
        m.EnableKeyword(ShBandsKeyword(b));
        built := built + [m];
      }
      materials := Some(built);
    }

    /**
      A new mesh of `splatInstanceSize` quads: four corners per quad with the quad number in z,
      and the triangles (0,1,2), (1,3,2) of each quad. The previous mesh is not destroyed here.
    */
    method CreateMeshInstance()
      requires splatInstanceSize <= MaxSplatInstanceSize
      modifies this`mesh
      ensures mesh != null && fresh(mesh) && !mesh.destroyed
      ensures |mesh.vertices| == 4 * splatInstanceSize && |mesh.triangles| == 6 * splatInstanceSize
      ensures forall k :: 0 <= k < |mesh.vertices| ==> mesh.vertices[k] == VertexAt(InstanceLayout, k)
      ensures forall k :: 0 <= k < |mesh.triangles| ==> mesh.triangles[k] == IndexAt(InstanceLayout, k)
    {
      LayoutsAgree();
      var vertices, indices := FillQuads(splatInstanceSize, InstanceLayout);
      mesh := new Mesh(vertices[..], indices[..]);
    }

    /** The mesh built by `CreateMeshInstance` indexes only its own vertices. */
    lemma InstanceIndicesInRange()
      requires mesh != null && |mesh.vertices| == 4 * splatInstanceSize && |mesh.triangles| == 6 * splatInstanceSize
      requires forall k :: 0 <= k < |mesh.triangles| ==> mesh.triangles[k] == IndexAt(InstanceLayout, k)
      ensures forall k :: 0 <= k < |mesh.triangles| ==> 0 <= mesh.triangles[k] < |mesh.vertices|
    {
      LayoutsAgree();
      forall k | 0 <= k < |mesh.triangles|
        ensures 0 <= mesh.triangles[k] < |mesh.vertices|
      {
        IndicesInRange(InstanceLayout, splatInstanceSize as nat, k);
      }
    }

    /** The fields `OnValidate` and `OnEnable` record after rebuilding. */
    predicate InSync()
      reads this
    {
      prevShader == shader && prevComputeShader == computeShader && prevSplatInstanceSize == splatInstanceSize
    }

    /**
      Rebuilds what changed since the last call: the materials when the shader changed, the
      sorter's pass when the compute shader changed, the mesh when the instance size changed
      (destroying the old mesh first). Whatever did not change is left alone.
    */
    method OnValidate(sorter: GsplatSorter, vulkan: bool)
      requires splatInstanceSize != prevSplatInstanceSize ==> splatInstanceSize <= MaxSplatInstanceSize
      modifies this`materials, this`mesh, this`prevShader, this`prevComputeShader, this`prevSplatInstanceSize
      modifies OldMaterials(), sorter`sortPass, computeShader, mesh
      ensures InSync()
      ensures old(shader == prevShader) ==> materials == old(materials) && unchanged(old(OldMaterials()))
      ensures old(shader != prevShader) && shader != null ==> MaterialsFor(shader)
      ensures old(shader != prevShader) && shader == null ==> materials == None
      ensures old(shader != prevShader) ==> forall m :: m in old(OldMaterials()) ==> m.destroyed
      ensures old(computeShader == prevComputeShader) ==> sorter.sortPass == old(sorter.sortPass)
      ensures old(computeShader != prevComputeShader) ==>
        (computeShader == null ==> sorter.sortPass == null) &&
        (computeShader != null ==> sorter.sortPass != null && fresh(sorter.sortPass) && sorter.sortPass.cs == computeShader)
      ensures old(splatInstanceSize == prevSplatInstanceSize) ==> mesh == old(mesh) && (mesh != null ==> unchanged(mesh))
      ensures old(splatInstanceSize != prevSplatInstanceSize) ==>
        mesh != null && fresh(mesh) && !mesh.destroyed && |mesh.vertices| == 4 * splatInstanceSize
        && (old(mesh) != null ==> old(mesh).destroyed)
    {
      SyncShader();
      SyncComputeShader(sorter, vulkan);
      SyncMesh();
    }

    /** `OnValidate`'s first step: new materials when the shader changed. */
    method SyncShader()
      modifies this`materials, this`prevShader, OldMaterials()
      ensures prevShader == shader
      ensures old(shader == prevShader) ==> materials == old(materials) && unchanged(old(OldMaterials()))
      ensures old(shader != prevShader) && shader != null ==> MaterialsFor(shader)
      ensures old(shader != prevShader) && shader == null ==> materials == None
      ensures old(shader != prevShader) ==> forall m :: m in old(OldMaterials()) ==> m.destroyed
    {
      if shader != prevShader {
        CreateMaterials();
        prevShader := shader;
      }
    }

    /** `OnValidate`'s second step: a new sort pass when the compute shader changed. */
    method SyncComputeShader(sorter: GsplatSorter, vulkan: bool)
      modifies this`prevComputeShader, sorter`sortPass, computeShader
      ensures prevComputeShader == computeShader
      ensures old(computeShader == prevComputeShader) ==> sorter.sortPass == old(sorter.sortPass)
      ensures old(computeShader != prevComputeShader) ==>
        (computeShader == null ==> sorter.sortPass == null) &&
        (computeShader != null ==> sorter.sortPass != null && fresh(sorter.sortPass) && sorter.sortPass.cs == computeShader)
    {
      if computeShader != prevComputeShader {
        sorter.InitSorter(computeShader, vulkan);
        prevComputeShader := computeShader;
      }
    }

    /** `OnValidate`'s last step: the old mesh destroyed and a new one built when the size changed. */
    method SyncMesh()
      requires splatInstanceSize != prevSplatInstanceSize ==> splatInstanceSize <= MaxSplatInstanceSize
      modifies this`mesh, this`prevSplatInstanceSize, mesh
      ensures prevSplatInstanceSize == splatInstanceSize
      ensures old(splatInstanceSize == prevSplatInstanceSize) ==> mesh == old(mesh) && (mesh != null ==> unchanged(mesh))
      ensures old(splatInstanceSize != prevSplatInstanceSize) ==>
        mesh != null && fresh(mesh) && !mesh.destroyed && |mesh.vertices| == 4 * splatInstanceSize
        && (old(mesh) != null ==> old(mesh).destroyed)
    {
      if splatInstanceSize != prevSplatInstanceSize {
        if mesh != null {
          mesh.Destroy();
        }
        CreateMeshInstance();
        prevSplatInstanceSize := splatInstanceSize;
      }
    }

    /**
      Rebuilds everything unconditionally: the materials, the sorter's pass and a new mesh. The
      previous mesh is left as it was.
    */
    method OnEnable(sorter: GsplatSorter, vulkan: bool)
      requires splatInstanceSize <= MaxSplatInstanceSize
      modifies this`materials, this`mesh, this`prevShader, this`prevComputeShader, this`prevSplatInstanceSize
      modifies OldMaterials(), sorter`sortPass, computeShader
      ensures InSync()
      ensures shader != null ==> MaterialsFor(shader)
      ensures shader == null ==> materials == None
      ensures forall m :: m in old(OldMaterials()) ==> m.destroyed
      ensures computeShader == null ==> sorter.sortPass == null
      ensures computeShader != null ==> sorter.sortPass != null && fresh(sorter.sortPass) && sorter.sortPass.cs == computeShader
      ensures mesh != null && fresh(mesh) && !mesh.destroyed && |mesh.vertices| == 4 * splatInstanceSize
    {
      CreateMaterials();
      prevShader := shader;
      sorter.InitSorter(computeShader, vulkan);
      prevComputeShader := computeShader;
      CreateMeshInstance();
      prevSplatInstanceSize := splatInstanceSize;
    }
  }

  /**
    After `OnEnable` with a shader and a positive instance size, the settings are valid and the
    renderer draws an asset with `b` bands (0 to 3) with the material carrying `SH_BANDS_b`.
  */
  lemma EnabledSettingsDrawBand(s: GsplatSettings, bands: byte)
    requires s.shader != null && s.MaterialsFor(s.shader) && s.MeshAlive() && s.splatInstanceSize > 0
    requires bands < MaterialCount
    ensures s.Valid()
    ensures MaterialFor(s.materials, bands).Drawn?
    ensures ShBandsKeyword(bands as nat) in MaterialFor(s.materials, bands).material.keywords
  {
  }
}
