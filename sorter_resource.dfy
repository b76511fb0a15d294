/**
  `GsplatSorter.Resource`: the per-drawable sort state. It holds the drawable's position and order
  buffers, a key buffer of its own, the radix sort's support buffers and whether the order buffer
  has been filled with the identity payload yet.
*/
module SorterResource {
  import opened Ints
  import opened Graphics
  import opened SortPass

  class Resource {
    const positionBuffer: GraphicsBuffer?
    const orderBuffer: GraphicsBuffer?
    var inputKeys: GraphicsBuffer?
    /** A get-only property of struct type: reading it yields a copy, so nothing can null its fields. */
    const resources: SupportResources
    var initialized: bool

    /** Every buffer the resource can release. */
    function Owned(): set<GraphicsBuffer>
      reads this
    {
      Present([inputKeys]) + Buffers(resources)
    }

    /**
      A key buffer of `count` four-byte elements, support buffers as `SupportResources.Load(count)`
      sizes them, and the payload not yet initialised.
    */
    constructor (count: uint32, positionBuffer: GraphicsBuffer?, orderBuffer: GraphicsBuffer?)
      ensures this.positionBuffer == positionBuffer && this.orderBuffer == orderBuffer
      ensures inputKeys != null && fresh(inputKeys) && !inputKeys.released
      ensures inputKeys.count == AsInt32(count) && inputKeys.stride == Stride
      ensures Loaded(resources) && fresh(Buffers(resources))
      ensures resources.alt.count == AsInt32(count) && resources.altPayload.count == AsInt32(count)
      ensures resources.passHist.count == PassHistCount(count)
      ensures resources.globalHist.count == Radix * Passes
      ensures !initialized
    {
      this.positionBuffer := positionBuffer;
      this.orderBuffer := orderBuffer;
      var keys := new GraphicsBuffer(AsInt32(count), Stride);
      var support := Load(count);
      inputKeys := keys;
      resources := support;
      initialized := false;
    }

    /**
      Releases the key buffer and the support buffers and forgets the key buffer. The support
      buffers stay referenced (their nulling happens on a copy) and `initialized` is kept, so a
      second call releases the same support buffers again and changes nothing else.
    */
    method Dispose()
      modifies this`inputKeys, Owned()
      ensures inputKeys == null
      ensures forall b :: b in old(Owned()) ==> b.released
      ensures Owned() == Buffers(resources)
    {
      if inputKeys != null {
        PresentHas([inputKeys], 0);
        inputKeys.Release();
      }
      var _ := SortPass.Dispose(resources);
      inputKeys := null;
      assert Present([null]) == {};
    }
  }
}
