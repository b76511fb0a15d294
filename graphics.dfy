/**
  Stand-ins for the engine objects the core talks to. Only what the core observes is kept:
  a buffer's size and whether it was released, the commands appended to a command buffer and the
  cameras it is attached to, a compute shader's kernels and keywords. Floating-point matrices are
  carried as values of `real`; rounding is not modelled.
*/
module Graphics {
  import opened Ints

  /**
    A GPU buffer handle; `Release` is `GraphicsBuffer.Dispose`. `count` is the `int` element count
    the source passes to the engine (a `(int)` cast of a `uint` can make it negative).
  */
  class GraphicsBuffer {
    const count: int
    const stride: nat
    var released: bool

    constructor (count: int, stride: nat)
      ensures this.count == count && this.stride == stride && !released
    {
      this.count := count;
      this.stride := stride;
      released := false;
    }

    method Release()
      modifies this
      ensures released
    {
      released := true;
    }
  }

  /** The non-null members of a handful of optional buffer fields. */
  function Present(bs: seq<GraphicsBuffer?>): set<GraphicsBuffer>
  {
    set i | 0 <= i < |bs| && bs[i] != null :: bs[i] as GraphicsBuffer
  }

  lemma PresentHas(bs: seq<GraphicsBuffer?>, i: nat)
    requires i < |bs|
    ensures bs[i] != null ==> bs[i] in Present(bs)
  {
    if bs[i] != null {
      assert bs[i] == bs[i] as GraphicsBuffer;
    }
  }

  /** A 4x4 matrix in row-major order; entries outside the 16 cells read as zero. */
  datatype Matrix = Matrix(cells: seq<real>) {
    function At(row: nat, col: nat): real {
      if 4 * row + col < |cells| && col < 4 then cells[4 * row + col] else 0.0
    }
  }

  /** Entry `(row, col)` of the product `a * b`. */
  function ProductAt(a: Matrix, b: Matrix, row: nat, col: nat): real
  {
    a.At(row, 0) * b.At(0, col) + a.At(row, 1) * b.At(1, col)
    + a.At(row, 2) * b.At(2, col) + a.At(row, 3) * b.At(3, col)
  }

  /** The product `a * b` of two 4x4 matrices: cell `j` is row `j / 4` of `a` times column `j % 4` of `b`. */
  function Mul(a: Matrix, b: Matrix): (p: Matrix)
  {
    Matrix(seq(16, j requires 0 <= j < 16 => ProductAt(a, b, j / 4, j % 4)))
  }

  /** Every cell of `Mul(a, b)` is the matching row-by-column sum. */
  lemma MulCells(a: Matrix, b: Matrix)
    ensures |Mul(a, b).cells| == 16
    ensures forall row: nat, col: nat :: row < 4 && col < 4 ==> Mul(a, b).At(row, col) == ProductAt(a, b, row, col)
  {
    forall row: nat, col: nat | row < 4 && col < 4
      ensures Mul(a, b).At(row, col) == ProductAt(a, b, row, col)
    {
      var j := 4 * row + col;
      assert j / 4 == row && j % 4 == col;
    }
  }

  /** A kernel entry point of a compute shader and whether the current device supports it. */
  datatype Kernel = Kernel(name: string, supported: bool)

  class ComputeShader {
    const kernels: seq<Kernel>
    var keywords: set<string>

    constructor (kernels: seq<Kernel>)
      ensures this.kernels == kernels && keywords == {}
    {
      this.kernels := kernels;
      keywords := {};
    }

    /** The index of the kernel called `name`, or -1 when the shader has none. */
    function FindKernel(name: string): (k: int)
      ensures -1 <= k < |kernels|
      ensures k >= 0 ==> kernels[k].name == name
      ensures k == -1 <==> forall i :: 0 <= i < |kernels| ==> kernels[i].name != name
    {
      FirstKernel(kernels, name, 0)
    }

    predicate IsSupported(k: int)
      requires 0 <= k < |kernels|
    {
      kernels[k].supported
    }

    method EnableKeyword(keyword: string)
      modifies this
      ensures keywords == old(keywords) + {keyword}
    {
      keywords := keywords + {keyword};
    }

    method DisableKeyword(keyword: string)
      modifies this
      ensures keywords == old(keywords) - {keyword}
    {
      keywords := keywords - {keyword};
    }
  }

  function FirstKernel(ks: seq<Kernel>, name: string, from: nat): (k: int)
    requires from <= |ks|
    decreases |ks| - from
    ensures k == -1 || from <= k < |ks|
    ensures k >= 0 ==> ks[k].name == name && forall i :: from <= i < k ==> ks[i].name != name
    ensures k == -1 <==> forall i :: from <= i < |ks| ==> ks[i].name != name
  {
    if from == |ks| then -1
    else if ks[from].name == name then from
    else FirstKernel(ks, name, from + 1)
  }

  /** The commands the core records; `y` and `z` group counts are always 1 in the source. */
  datatype Command =
    | SetComputeInt(shader: ComputeShader, name: string, value: int)
    | SetComputeMatrix(shader: ComputeShader, name: string, matrix: Matrix)
    | SetComputeBuffer(shader: ComputeShader, kernel: int, name: string, buffer: GraphicsBuffer?)
    | DispatchCompute(shader: ComputeShader, kernel: int, groups: int)
    | ExternalSort(sorter: object, target: object, matrixMv: Matrix)

  /**
    A command buffer: the commands recorded so far, whether it was released, and the cameras it is
    attached to (at `CameraEvent.BeforeForwardAlpha`, the only event the core uses), kept on the
    buffer's side of the relation.
  */
  class CommandBuffer {
    var commands: seq<Command>
    var released: bool
    var attachedTo: multiset<Camera>

    constructor ()
      ensures commands == [] && !released && attachedTo == multiset{}
    {
      commands := [];
      released := false;
      attachedTo := multiset{};
    }

    method SetComputeIntParam(shader: ComputeShader, name: string, value: int)
      modifies this`commands
      ensures commands == old(commands) + [SetComputeInt(shader, name, value)]
    {
      commands := commands + [SetComputeInt(shader, name, value)];
    }

    method SetComputeMatrixParam(shader: ComputeShader, name: string, matrix: Matrix)
      modifies this`commands
      ensures commands == old(commands) + [SetComputeMatrix(shader, name, matrix)]
    {
      commands := commands + [SetComputeMatrix(shader, name, matrix)];
    }

    method SetComputeBufferParam(shader: ComputeShader, kernel: int, name: string, buffer: GraphicsBuffer?)
      modifies this`commands
      ensures commands == old(commands) + [SetComputeBuffer(shader, kernel, name, buffer)]
    {
      commands := commands + [SetComputeBuffer(shader, kernel, name, buffer)];
    }

    /** `DispatchCompute(shader, kernel, groups, 1, 1)`. */
    method Dispatch(shader: ComputeShader, kernel: int, groups: int)
      modifies this`commands
      ensures commands == old(commands) + [DispatchCompute(shader, kernel, groups)]
    {
      commands := commands + [DispatchCompute(shader, kernel, groups)];
    }

    method Clear()
      modifies this`commands
      ensures commands == []
    {
      commands := [];
    }

    method Release()
      modifies this`released
      ensures released
    {
      released := true;
    }
  }

  datatype CameraType = Game | SceneView | Preview | VR | Reflection

  /** A camera; `destroyed` is what makes a Unity reference to it compare equal to null. */
  class Camera {
    const cameraType: CameraType
    const worldToCameraMatrix: Matrix
    var destroyed: bool

    constructor (cameraType: CameraType, worldToCameraMatrix: Matrix)
      ensures this.cameraType == cameraType && this.worldToCameraMatrix == worldToCameraMatrix
      ensures !destroyed
    {
      this.cameraType := cameraType;
      this.worldToCameraMatrix := worldToCameraMatrix;
      destroyed := false;
    }

    /** `Camera.AddCommandBuffer(CameraEvent.BeforeForwardAlpha, cb)`. */
    method AddCommandBuffer(cb: CommandBuffer)
      modifies cb`attachedTo
      ensures cb.attachedTo == old(cb.attachedTo) + multiset{this}
    {
      cb.attachedTo := cb.attachedTo + multiset{this};
    }

    /** `Camera.RemoveCommandBuffer(CameraEvent.BeforeForwardAlpha, cb)`. */
    method RemoveCommandBuffer(cb: CommandBuffer)
      modifies cb`attachedTo
      ensures cb.attachedTo == old(cb.attachedTo)[this := 0]
    {
      cb.attachedTo := cb.attachedTo[this := 0];
    }
  }

  class Shader {
    constructor ()
    {
    }
  }

  class Material {
    const shader: Shader
    var keywords: set<string>
    var destroyed: bool

    constructor (shader: Shader)
      ensures this.shader == shader && keywords == {} && !destroyed
    {
      this.shader := shader;
      keywords := {};
      destroyed := false;
    }

    method EnableKeyword(keyword: string)
      modifies this`keywords
      ensures keywords == old(keywords) + {keyword}
    {
      keywords := keywords + {keyword};
    }

    method Destroy()
      modifies this`destroyed
      ensures destroyed
    {
      destroyed := true;
    }
  }

  /**
    A vertex of the instanced splat quad: the xy corner and, in z, the float whose bit pattern is
    the integer `zBits` (the source writes `*(float*)&i`).
  */
  datatype QuadVertex = QuadVertex(x: int, y: int, zBits: int)

  class Mesh {
    const vertices: seq<QuadVertex>
    const triangles: seq<int>
    var destroyed: bool

    constructor (vertices: seq<QuadVertex>, triangles: seq<int>)
      ensures this.vertices == vertices && this.triangles == triangles && !destroyed
    {
      this.vertices := vertices;
      this.triangles := triangles;
      destroyed := false;
    }

    method Destroy()
      modifies this`destroyed
      ensures destroyed
    {
      destroyed := true;
    }
  }
}
