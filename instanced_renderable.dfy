/** The instance bookkeeping of Source/Library/Renderer/InstancedRenderable.cpp. */
module InstancedRenderables {
  import opened Common

  /** An RGBA colour (`XMFLOAT4`). */
  datatype Color = Color(r: real, g: real, b: real, a: real)

  /** An `XMFLOAT3`. */
  datatype Float3 = Float3(x: real, y: real, z: real)

  /** One element of the per-instance data; its layout lives in a header outside this model. */
  datatype InstanceData = InstanceData(tag: nat)

  /** A buffer object the device handed out, by identity. */
  datatype Buffer = Buffer(id: nat)

  datatype Usage = UsageDefault
  datatype BindFlag = BindVertexBuffer

  /** The `D3D11_BUFFER_DESC` and initial contents of a `CreateBuffer` request. */
  datatype BufferRequest = BufferRequest(byteWidth: nat, usage: Usage, bindFlags: BindFlag,
                                         cpuAccessFlags: nat, initialData: seq<Float3>)

  /** What `ID3D11Device::CreateBuffer` reports: a status and, on success, the buffer. */
  datatype BufferOutcome = BufferOutcome(hr: HResult, buffer: Option<Buffer>)

  const SIZE_OF_FLOAT3: nat := 12

  /** The three unit vectors `initializeInstance` uploads, whatever the instance data holds. */
  const UnitAxes: seq<Float3> := [Float3(1.0, 0.0, 0.0), Float3(0.0, 1.0, 0.0), Float3(0.0, 0.0, 1.0)]

  /** The request `initializeInstance` makes: three XMFLOAT3s, 36 bytes, a vertex buffer. */
  function InstanceBufferRequest(): (req: BufferRequest)
    ensures req.byteWidth == 36 && req.byteWidth == SIZE_OF_FLOAT3 * |req.initialData|
    ensures req.initialData == UnitAxes && req.bindFlags == BindVertexBuffer && req.cpuAccessFlags == 0
  {
    BufferRequest(SIZE_OF_FLOAT3 * |UnitAxes|, UsageDefault, BindVertexBuffer, 0, UnitAxes)
  }

  /** Any failure of `CreateBuffer` becomes E_FAIL; a success code passes through. */
  function CreateResult(hr: HResult): (r: HResult)
    ensures Failed(r) <==> Failed(hr)
    ensures Failed(hr) ==> r == E_FAIL
    ensures Succeeded(hr) ==> r == hr
  {
    if Failed(hr) then E_FAIL else hr
  }

  class InstancedRenderable {
    var outputColor: Color
    var instanceData: seq<InstanceData>
    var instanceBuffer: Option<Buffer>

    /** Colour only: no instance data and no buffer yet. */
    constructor WithColor(outputColor: Color)
      ensures this.outputColor == outputColor
      ensures instanceData == [] && instanceBuffer == None
    {
      this.outputColor := outputColor;
      instanceData := [];
      instanceBuffer := None;
    }

    /** Instance data and colour: the data is taken over as given, no buffer yet. */
    constructor WithData(instanceData: seq<InstanceData>, outputColor: Color)
      ensures this.outputColor == outputColor
      ensures this.instanceData == instanceData && instanceBuffer == None
    {
      this.outputColor := outputColor;
      this.instanceData := instanceData;
      instanceBuffer := None;
    }

    /** Replaces the instance data entirely. */
    method SetInstanceData(instanceData: seq<InstanceData>)
      modifies this
      ensures this.instanceData == instanceData
      ensures outputColor == old(outputColor) && instanceBuffer == old(instanceBuffer)
    {
      this.instanceData := instanceData;
    }

    /** The element count, cast to a 32-bit `UINT`. */
    function GetNumInstances(): (n: nat)
      reads this
      ensures n < TWO_POW_32
      ensures |instanceData| < TWO_POW_32 ==> n == |instanceData|
    {
      |instanceData| % TWO_POW_32
    }

    /** The stored buffer handle, as it is. */
    function GetInstanceBuffer(): (b: Option<Buffer>)
      reads this
      ensures b == instanceBuffer
    {
      instanceBuffer
    }

    /**
     * `initializeInstance`: asks the device for the 36-byte instance buffer and keeps what
     * it returns; the status is mapped by CreateResult.
     */
    method InitializeInstance(createBuffer: BufferRequest -> BufferOutcome) returns (hr: HResult)
      modifies this
      ensures instanceBuffer == createBuffer(InstanceBufferRequest()).buffer
      ensures hr == CreateResult(createBuffer(InstanceBufferRequest()).hr)
      ensures instanceData == old(instanceData) && outputColor == old(outputColor)
    {
      var aInstancedData := [Float3(1.0, 0.0, 0.0), Float3(0.0, 1.0, 0.0), Float3(0.0, 0.0, 1.0)];
      var bd := BufferRequest(SIZE_OF_FLOAT3 * |aInstancedData|, UsageDefault, BindVertexBuffer, 0, aInstancedData);
      var outcome := createBuffer(bd);
      instanceBuffer := outcome.buffer;
      hr := outcome.hr;
      if Failed(hr) {
        return E_FAIL;
      }
      return hr;
    }
  }

  /** Construction and replacement set the instance count to the length of the data given. */
  method InstanceCounts(color: Color, data: seq<InstanceData>, replacement: seq<InstanceData>)
    returns (fromColor: nat, fromData: nat, afterSet: nat)
    requires |data| < TWO_POW_32 && |replacement| < TWO_POW_32
    ensures fromColor == 0 && fromData == |data| && afterSet == |replacement|
  {
    var empty := new InstancedRenderable.WithColor(color);
    fromColor := empty.GetNumInstances();
    var filled := new InstancedRenderable.WithData(data, color);
    fromData := filled.GetNumInstances();
    filled.SetInstanceData(replacement);
    afterSet := filled.GetNumInstances();
  }
}
