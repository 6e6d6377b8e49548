/** The worker's per-device loading options for the speech-recognition pipeline. */
module DeviceConfig {
  import opened Types

  /** The `dtype` option: one precision for the whole model, or one per ONNX sub-model. */
  datatype Dtype =
    | Uniform(precision: string)
    | PerSubModel(encoderModel: string, decoderModelMerged: string)

  /** One entry of the table: the precision selection and the ONNX backend. */
  datatype Config = Config(dtype: Dtype, device: string)

  const WEBGPU: string := "webgpu"
  const WASM: string := "wasm"

  /** `PER_DEVICE_CONFIG` */
  const PER_DEVICE_CONFIG: map<string, Config> := map[
    WEBGPU := Config(PerSubModel("fp32", "q4"), WEBGPU),
    WASM := Config(Uniform("q8"), WASM)
  ]

  /**
   * What `...PER_DEVICE_CONFIG[device]` contributes to the pipeline options. A key the table
   * does not own yields `undefined` (or an inherited object member), and spreading either
   * adds no option, which is None here; no error is raised.
   */
  function Lookup(device: string): (c: Option<Config>)
    ensures c.Some? <==> device == WEBGPU || device == WASM
    ensures c.Some? ==> c.value.device == device
    ensures device == WEBGPU ==> c == Some(Config(PerSubModel("fp32", "q4"), WEBGPU))
    ensures device == WASM ==> c == Some(Config(Uniform("q8"), WASM))
  {
    if device in PER_DEVICE_CONFIG then Some(PER_DEVICE_CONFIG[device]) else None
  }
}
