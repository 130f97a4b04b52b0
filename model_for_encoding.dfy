/**
 * The text-embedding model wrapper: which encoding configuration a call uses,
 * whether its result is squeezed, which raw output it returns, and the output
 * dimension reported for the model. Tokenisation and inference are not
 * modelled: the call receives them as one function from the batch and the
 * effective configuration to the session's raw outputs. Tensors are opaque
 * (type parameter `T`) and numpy's `squeeze` is a function parameter about
 * which nothing is assumed.
 */
module EncodingModel {
  import opened PyValues
  import opened Types
  import opened SpiModel

  /** `squeeze = not isinstance(batch, list)`. */
  function Squeezes(batch: Batch): (r: bool)
    ensures r <==> batch.Text? || batch.Pair?
  {
    !batch.IsList()
  }

  /**
   * `config if config else self.enc_config`: a supplied configuration is
   * used whole, never merged with the model's; without one the model's is
   * used unchanged.
   */
  function EffectiveConfig(config: Option<EncodingConfig>, modelDefault: EncodingConfig): (r: EncodingConfig)
    ensures config.Some? ==> r == config.value
    ensures config.None? ==> r == modelDefault
  {
    match config
    case Some(c) => c
    case None => modelDefault
  }

  function MaybeSqueeze<T>(t: T, squeeze: bool, squeezeFn: T -> T): T {
    if squeeze then squeezeFn(t) else t
  }

  /**
   * The output selection of a call: a single output is returned whatever the
   * configured name; otherwise the outputs are keyed by the declared output
   * names and the one named `outputName` is returned, or `KeyError` raised.
   */
  function SelectOutput<T>(outputs: seq<T>, names: seq<string>, outputName: string, squeeze: bool, squeezeFn: T -> T): (r: Result<T>)
    ensures |outputs| == 1 ==> r == Ok(MaybeSqueeze(outputs[0], squeeze, squeezeFn))
    ensures |outputs| != 1 ==> (r.Ok? <==> outputName in names[..Min(|names|, |outputs|)])
    ensures r.Err? ==> r.error == KeyError(outputName)
  {
    if |outputs| == 1 then Ok(MaybeSqueeze(outputs[0], squeeze, squeezeFn))
    else
      var byName := ZipMap(names, outputs);
      if outputName in byName then Ok(MaybeSqueeze(byName[outputName], squeeze, squeezeFn))
      else Err(KeyError(outputName))
  }

  /**
   * With several outputs, names pair with outputs by position: the output at
   * the (last) position declared under `outputName` is the one returned.
   */
  lemma SelectByName<T>(outputs: seq<T>, names: seq<string>, outputName: string, squeeze: bool, squeezeFn: T -> T, i: nat)
    requires |outputs| != 1
    requires i < |names| && i < |outputs| && names[i] == outputName
    requires forall j :: i < j < |names| && j < |outputs| ==> names[j] != outputName
    ensures SelectOutput(outputs, names, outputName, squeeze, squeezeFn) == Ok(MaybeSqueeze(outputs[i], squeeze, squeezeFn))
  {
    ZipMapAt(names, outputs, i);
  }

  /** With a single output, the configured output name plays no part. */
  lemma SingleOutputIgnoresName<T>(outputs: seq<T>, names: seq<string>, a: string, b: string, squeeze: bool, squeezeFn: T -> T)
    requires |outputs| == 1
    ensures SelectOutput(outputs, names, a, squeeze, squeezeFn) == SelectOutput(outputs, names, b, squeeze, squeezeFn)
  {
  }

  /**
   * `get_output_dim`: dimension 1 of the first declared output's shape when
   * it is a number; when it is symbolic, the `dim` entry of the model
   * configuration, and an assertion failure when there is none.
   */
  function OutputDim(io: ModelIO, modelConfig: ModelConfig): (r: Result<Json>)
    requires io.WellFormed()
    ensures |io.names| == 0 ==> r.Err? && r.error.IndexError?
    ensures |io.names| > 0 ==>
              var shape := io.shapes[io.names[0]];
              && (|shape| < 2 ==> r.Err? && r.error.IndexError?)
              && (|shape| >= 2 && shape[1].Int? ==> r == Ok(JInt(shape[1].n)))
              && (|shape| >= 2 && shape[1].Sym? ==>
                    && (r.Ok? <==> "dim" in modelConfig.data)
                    && (r.Ok? ==> r.value == modelConfig.data["dim"])
                    && (r.Err? ==> r.error == AssertionError("cannot determine output dim")))
  {
    if |io.names| == 0 then Err(IndexError("list index out of range"))
    else
      var shape := io.shapes[io.names[0]];
      if |shape| < 2 then Err(IndexError("list index out of range"))
      else
        match shape[1]
        case Int(n) => Ok(JInt(n))
        case Sym(_) =>
          if "dim" in modelConfig.data then Ok(modelConfig.data["dim"])
          else Err(AssertionError("cannot determine output dim"))
  }

  /**
   * On the signature read from the session's output nodes, the dimension is
   * that of the first node (when its name is not repeated): its own second
   * dimension, or the configured `dim` when that dimension is symbolic.
   */
  lemma OutputDimFromNodes(nodes: seq<NodeArg>, modelConfig: ModelConfig)
    requires |nodes| > 0 && |nodes[0].shape| >= 2
    requires forall j :: 0 < j < |nodes| ==> nodes[j].name != nodes[0].name
    ensures nodes[0].shape[1].Int? ==>
              OutputDim(ModelIOFromNodes(nodes), modelConfig) == Ok(JInt(nodes[0].shape[1].n))
    ensures nodes[0].shape[1].Sym? && "dim" in modelConfig.data ==>
              OutputDim(ModelIOFromNodes(nodes), modelConfig) == Ok(modelConfig.data["dim"])
    ensures nodes[0].shape[1].Sym? && "dim" !in modelConfig.data ==>
              OutputDim(ModelIOFromNodes(nodes), modelConfig) == Err(AssertionError("cannot determine output dim"))
  {
  }

  /** A model wrapper for text-embedding networks. */
  class ModelForEncoding {
    /** The parsed `config.json`, with `config_path` recorded. */
    const modelConfig: ModelConfig
    /** The declared outputs of the inference session. */
    const output: ModelIO
    /** The model-level encoding configuration derived at construction. */
    const encConfig: EncodingConfig

    ghost predicate Valid() {
      output.WellFormed()
    }

    /**
     * Construction from a model directory whose `config.json` parsed to
     * `configJson`, whose `tokenizer_init.json` parsed to `tokenizerInit`
     * (`None` when absent), and whose session declares `outputNodes`.
     */
    constructor (configPath: string, configJson: map<string, Json>, tokenizerInit: Option<map<string, Json>>,
                 outputNodes: seq<NodeArg>)
      ensures Valid()
      ensures modelConfig.data == configJson["config_path" := JString(configPath)]
      ensures output == ModelIOFromNodes(outputNodes)
      ensures encConfig == EncodingFromInit(tokenizerInit)
    {
      var loaded := FromPath(configPath, Some(configJson));
      var enc := FromConfig(tokenizerInit);
      modelConfig := loaded.value;
      output := ModelIOFromNodes(outputNodes);
      encConfig := enc;
    }

    /**
     * `__call__`: the effective configuration is handed to the encoder whole,
     * and the result is selected from the raw outputs by its `output_name`,
     * squeezed when the batch is not a list.
     */
    function Call<T>(batch: Batch, config: Option<EncodingConfig>, run: (Batch, EncodingConfig) -> seq<T>,
                     squeezeFn: T -> T): (r: Result<T>)
      ensures config.Some? ==>
                r == SelectOutput(run(batch, config.value), output.names, config.value.outputName, Squeezes(batch), squeezeFn)
      ensures config.None? ==>
                r == SelectOutput(run(batch, encConfig), output.names, encConfig.outputName, Squeezes(batch), squeezeFn)
    {
      var cfg := EffectiveConfig(config, encConfig);
      SelectOutput(run(batch, cfg), output.names, cfg.outputName, Squeezes(batch), squeezeFn)
    }

    /** `get_output_dim` on this model's declared outputs and configuration. */
    function GetOutputDim(): (r: Result<Json>)
      requires Valid()
      ensures |output.names| == 0 ==> r.Err? && r.error.IndexError?
      ensures |output.names| > 0 && |output.shapes[output.names[0]]| < 2 ==> r.Err? && r.error.IndexError?
      ensures |output.names| > 0 && |output.shapes[output.names[0]]| >= 2 ==>
                var d := output.shapes[output.names[0]][1];
                && (d.Int? ==> r == Ok(JInt(d.n)))
                && (d.Sym? && "dim" in modelConfig.data ==> r == Ok(modelConfig.data["dim"]))
                && (d.Sym? && "dim" !in modelConfig.data ==> r == Err(AssertionError("cannot determine output dim")))
    {
      OutputDim(output, modelConfig)
    }
  }
}
