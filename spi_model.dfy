/**
 * The configuration objects the model wrapper is built from: the tokenizer
 * configuration with its special-token lookup, the declared input/output
 * signature of the network, the encoding configuration with the defaults
 * derived from a tokenizer initialisation file, and the model configuration.
 * The JSON files themselves are not read here: each parsed file, or its
 * absence, is a parameter.
 */
module SpiModel {
  import opened PyValues
  import opened Enums
  import opened Types

  // ===========================================================================
  // TokenizerConfig: special-token lookup

  /** A parsed tokenizer descriptor: an ordered dict from key to JSON value. */
  datatype TokenizerConfig = TokenizerConfig(data: map<string, Json>)

  /** An `added_tokens` entry whose `content` is one of the aliases. */
  predicate Matches(entry: Json, aliases: seq<string>) {
    && entry.JObject?
    && "content" in entry.fields
    && entry.fields["content"].JString?
    && entry.fields["content"].s in aliases
  }

  /** Comparing the entry's `content` against the aliases raises nothing. */
  predicate Comparable(entry: Json, aliases: seq<string>) {
    aliases == [] || (entry.JObject? && "content" in entry.fields)
  }

  /**
   * The inner loop over the aliases for one entry: `entry["content"]` is
   * evaluated for the first alias (and raises there if it can), then compared
   * with each alias in turn.
   */
  function MatchesAny(entry: Json, aliases: seq<string>): (r: Result<bool>)
    ensures r.Ok? <==> Comparable(entry, aliases)
    ensures r.Ok? ==> (r.value <==> Matches(entry, aliases))
    ensures r.Err? ==> r.error == Subscript(entry, "content").error
  {
    if aliases == [] then Ok(false)
    else
      var content :- Subscript(entry, "content");
      Ok(content.JString? && content.s in aliases)
  }

  /**
   * The outer loop over the `added_tokens` entries: the first entry that
   * matches, `None` (`JNull`) when none does, or the error of the first entry
   * that cannot be compared.
   */
  function ScanEntries(entries: seq<Json>, aliases: seq<string>): (r: Result<Json>)
    ensures r.Ok? && r.value != JNull ==> r.value in entries && Matches(r.value, aliases)
    ensures r == Ok(JNull) ==>
              forall k :: 0 <= k < |entries| ==> Comparable(entries[k], aliases) && !Matches(entries[k], aliases)
    ensures r.Err? ==>
              exists k :: 0 <= k < |entries| && !Comparable(entries[k], aliases)
                          && r.error == Subscript(entries[k], "content").error
  {
    if entries == [] then Ok(JNull)
    else
      match MatchesAny(entries[0], aliases)
      case Err(e) => Err(e)
      case Ok(true) => Ok(entries[0])
      case Ok(false) =>
        var rest := ScanEntries(entries[1..], aliases);
        assert forall k :: 0 < k < |entries| ==> entries[k] == entries[1..][k - 1];
        rest
  }

  /**
   * Iterating the `added_tokens` value. A list yields its entries. A string
   * yields one-character strings and a dict yields its keys; either way every
   * entry is a string, and `entry["content"]` on a string raises `TypeError`,
   * so only an empty one (or an empty alias list) gets through. `None`, a
   * number or a boolean is not iterable.
   */
  function ScanAddedTokens(added: Json, aliases: seq<string>): (r: Result<Json>)
    ensures added.JArray? ==> r == ScanEntries(added.items, aliases)
    ensures added.JString? ==> (r == Ok(JNull) <==> added.s == [] || aliases == [])
    ensures added.JObject? ==> (r == Ok(JNull) <==> |added.fields| == 0 || aliases == [])
    ensures !added.JArray? ==> r.Ok? ==> r.value == JNull
    ensures !added.JArray? && r.Err? ==> r.error.TypeError?
    ensures !(added.JArray? || added.JString? || added.JObject?) ==> r.Err?
  {
    match added
    case JArray(entries) => ScanEntries(entries, aliases)
    case JString(s) =>
      if s == [] || aliases == [] then Ok(JNull) else Err(TypeError("string indices must be integers"))
    case JObject(m) =>
      if |m| == 0 || aliases == [] then Ok(JNull) else Err(TypeError("string indices must be integers"))
    case _ => Err(TypeError("object is not iterable"))
  }

  /**
   * `TokenizerConfig._get_token(name, abbreviations)`: the direct key if
   * present, else the scan of `added_tokens`, which raises `KeyError` when the
   * descriptor has no `added_tokens` key. `JNull` stands for `None`.
   */
  function ResolveToken(config: TokenizerConfig, name: string, aliases: seq<string>): (r: Result<Json>)
    ensures name in config.data ==> r == Ok(config.data[name])
    ensures name !in config.data && "added_tokens" !in config.data ==> r == Err(KeyError("added_tokens"))
  {
    if name in config.data then Ok(config.data[name])
    else if "added_tokens" !in config.data then Err(KeyError("added_tokens"))
    else ScanAddedTokens(config.data["added_tokens"], aliases)
  }

  /** `_get_token` as the source writes it: nested loops with an early return. */
  method GetToken(config: TokenizerConfig, name: string, aliases: seq<string>) returns (r: Result<Json>)
    ensures r == ResolveToken(config, name, aliases)
  {
    if name in config.data {
      return Ok(config.data[name]);
    }
    if "added_tokens" !in config.data {
      return Err(KeyError("added_tokens"));
    }
    var added := config.data["added_tokens"];
    var entries: seq<Json>;
    match added {
      case JArray(items) =>
        entries := items;
      case JString(s) =>
        if s == [] || aliases == [] {
          return Ok(JNull);
        }
        return Err(TypeError("string indices must be integers"));
      case JObject(m) =>
        if |m| == 0 || aliases == [] {
          return Ok(JNull);
        }
        return Err(TypeError("string indices must be integers"));
      case _ =>
        return Err(TypeError("object is not iterable"));
    }
    var i := 0;
    while i < |entries|
      invariant 0 <= i <= |entries|
      invariant ScanEntries(entries[i..], aliases) == ScanEntries(entries, aliases)
    {
      var entry := entries[i];
      var j := 0;
      while j < |aliases|
        invariant 0 <= j <= |aliases|
        invariant j > 0 ==> Subscript(entry, "content").Ok?
        invariant forall k :: 0 <= k < j ==> Subscript(entry, "content") != Ok(JString(aliases[k]))
      {
        var content := Subscript(entry, "content");
        if content.Err? {
          return Err(content.error);
        }
        if content.value == JString(aliases[j]) {
          return Ok(entry);
        }
        j := j + 1;
      }
      assert entries[i..][1..] == entries[i + 1..];
      i := i + 1;
    }
    return Ok(JNull);
  }

  /**
   * The scan stops at index `i`, the first entry that matches or cannot be
   * compared: every earlier entry was compared and did not match; a match
   * returns that entry, whichever alias it matched; an uncomparable entry
   * raises; and with no such entry the result is `None`.
   */
  lemma {:induction false} ScanStopsAtFirst(entries: seq<Json>, aliases: seq<string>) returns (i: nat)
    ensures i <= |entries|
    ensures forall k :: 0 <= k < i ==> Comparable(entries[k], aliases) && !Matches(entries[k], aliases)
    ensures i == |entries| ==> ScanEntries(entries, aliases) == Ok(JNull)
    ensures i < |entries| && Matches(entries[i], aliases) ==> ScanEntries(entries, aliases) == Ok(entries[i])
    ensures i < |entries| && !Matches(entries[i], aliases) ==>
              !Comparable(entries[i], aliases)
              && ScanEntries(entries, aliases) == Err(Subscript(entries[i], "content").error)
  {
    if entries == [] {
      return 0;
    }
    if !Comparable(entries[0], aliases) || Matches(entries[0], aliases) {
      return 0;
    }
    var j := ScanStopsAtFirst(entries[1..], aliases);
    forall k | 0 <= k < j + 1
      ensures Comparable(entries[k], aliases) && !Matches(entries[k], aliases)
    {
      if k > 0 {
        assert entries[k] == entries[1..][k - 1];
      }
    }
    return j + 1;
  }

  /**
   * The earliest entry in `added_tokens` order wins: when entry `i` matches
   * and every earlier entry is a comparable non-match, entry `i` is returned,
   * even if a later entry matches an alias listed earlier.
   */
  lemma {:induction false} EarliestEntryWins(entries: seq<Json>, aliases: seq<string>, i: nat)
    requires i < |entries| && Matches(entries[i], aliases)
    requires forall k :: 0 <= k < i ==> Comparable(entries[k], aliases) && !Matches(entries[k], aliases)
    ensures ScanEntries(entries, aliases) == Ok(entries[i])
  {
    var j := ScanStopsAtFirst(entries, aliases);
  }

  /** When no entry's `content` is an alias and none raises, the lookup yields `None`. */
  lemma {:induction false} NoMatchIsNone(entries: seq<Json>, aliases: seq<string>)
    requires forall k :: 0 <= k < |entries| ==> Comparable(entries[k], aliases) && !Matches(entries[k], aliases)
    ensures ScanEntries(entries, aliases) == Ok(JNull)
  {
    var j := ScanStopsAtFirst(entries, aliases);
  }

  /** What the scan returns is `None` or a matching entry of the list. */
  lemma {:induction false} ScanResult(entries: seq<Json>, aliases: seq<string>)
    ensures ScanEntries(entries, aliases).Ok? && ScanEntries(entries, aliases).value != JNull ==>
              ScanEntries(entries, aliases).value in entries
              && Matches(ScanEntries(entries, aliases).value, aliases)
  {
    var j := ScanStopsAtFirst(entries, aliases);
    if j < |entries| && !Matches(entries[j], aliases) {
      assert ScanEntries(entries, aliases).Err?;
    }
  }

  /** The special-token roles of a tokenizer descriptor. */
  datatype Role = Cls | Pad | Sep | Eos | Unk | Bos | Mask {
    /** The direct key of the role in the descriptor. */
    function KeyName(): string {
      match this
      case Cls => "cls_token"
      case Pad => "pad_token"
      case Sep => "sep_token"
      case Eos => "eos_token"
      case Unk => "unk_token"
      case Bos => "bos_token"
      case Mask => "mask_token"
    }

    /** The token contents that identify the role among `added_tokens`. */
    function Aliases(): seq<string> {
      match this
      case Cls => ["[CLS]"]
      case Pad => ["[PAD]", "<pad>"]
      case Sep => ["[SEP]"]
      case Eos => ["[EOS]", "</s>"]
      case Unk => ["[UNK]", "<unk>"]
      case Bos => ["[BOS]"]
      case Mask => ["[MASK]", "<mask>"]
    }
  }

  /** The role properties `cls_token` ... `mask_token` of the descriptor. */
  function ResolveRole(config: TokenizerConfig, role: Role): (r: Result<Json>)
    ensures role.KeyName() in config.data ==> r == Ok(config.data[role.KeyName()])
    ensures role.KeyName() !in config.data && "added_tokens" !in config.data ==> r == Err(KeyError("added_tokens"))
    ensures role.KeyName() !in config.data && r.Ok? && r.value != JNull ==>
              && config.data["added_tokens"].JArray?
              && r.value in config.data["added_tokens"].items
              && Matches(r.value, role.Aliases())
  {
    ResolveToken(config, role.KeyName(), role.Aliases())
  }

  /**
   * Roles have distinct keys and disjoint alias lists, so one descriptor
   * entry can stand for at most one role.
   */
  lemma RolesAreDistinct(a: Role, b: Role)
    requires a != b
    ensures a.KeyName() != b.KeyName()
    ensures forall x :: x in a.Aliases() ==> x !in b.Aliases()
  {
  }

  /**
   * A role found among `added_tokens` is an entry of that list whose
   * `content` is one of the role's aliases.
   */
  lemma AddedTokenRole(config: TokenizerConfig, role: Role)
    requires role.KeyName() !in config.data && "added_tokens" in config.data
    requires config.data["added_tokens"].JArray?
    ensures ResolveRole(config, role).Ok? && ResolveRole(config, role).value != JNull ==>
              ResolveRole(config, role).value in config.data["added_tokens"].items
              && Matches(ResolveRole(config, role).value, role.Aliases())
  {
    ScanResult(config.data["added_tokens"].items, role.Aliases());
  }

  // ===========================================================================
  // Network signature

  /** One dimension of a declared tensor shape: a number, or a symbolic name. */
  datatype Dim = Int(n: int) | Sym(name: string)

  /** One declared input or output node of the inference session. */
  datatype NodeArg = NodeArg(name: string, elemType: string, shape: seq<Dim>)

  /** The names, element types and shapes of the inputs (or the outputs). */
  datatype ModelIO = ModelIO(names: seq<string>, types: map<string, string>, shapes: map<string, seq<Dim>>) {
    /** Every declared name has a type and a shape, and nothing else does. */
    ghost predicate WellFormed() {
      && (forall n :: n in types <==> n in names)
      && (forall n :: n in shapes <==> n in names)
    }
  }

  /**
   * The signature built from the session's node list: the names in order,
   * and dicts from name to type and to shape.
   */
  function ModelIOFromNodes(nodes: seq<NodeArg>): (io: ModelIO)
    ensures io.WellFormed()
    ensures |io.names| == |nodes|
    ensures forall i :: 0 <= i < |nodes| ==> io.names[i] == nodes[i].name
  {
    var names := seq(|nodes|, i requires 0 <= i < |nodes| => nodes[i].name);
    var types := ZipMap(names, seq(|nodes|, i requires 0 <= i < |nodes| => nodes[i].elemType));
    var shapes := ZipMap(names, seq(|nodes|, i requires 0 <= i < |nodes| => nodes[i].shape));
    assert names[..|nodes|] == names;
    ModelIO(names, types, shapes)
  }

  /** A node whose name is not repeated is described by its own type and shape. */
  lemma NodeSignature(nodes: seq<NodeArg>, i: nat)
    requires i < |nodes|
    requires forall j :: 0 <= j < |nodes| && j != i ==> nodes[j].name != nodes[i].name
    ensures ModelIOFromNodes(nodes).types[nodes[i].name] == nodes[i].elemType
    ensures ModelIOFromNodes(nodes).shapes[nodes[i].name] == nodes[i].shape
  {
    var names := seq(|nodes|, k requires 0 <= k < |nodes| => nodes[k].name);
    ZipMapAt(names, seq(|nodes|, k requires 0 <= k < |nodes| => nodes[k].elemType), i);
    ZipMapAt(names, seq(|nodes|, k requires 0 <= k < |nodes| => nodes[k].shape), i);
  }

  /** The inputs and outputs of the network. */
  datatype NetworkInfo = NetworkInfo(input: ModelIO, output: ModelIO)

  function GetInputNames(info: NetworkInfo): seq<string> {
    info.input.names
  }

  function GetOutputNames(info: NetworkInfo): seq<string> {
    info.output.names
  }

  /** The element type of a declared input, or `None` for an unknown name. */
  function GetInputType(info: NetworkInfo, name: string): (r: Option<string>)
    ensures r.Some? <==> name in info.input.types
    ensures r.Some? ==> r.value == info.input.types[name]
  {
    Get(info.input.types, name)
  }

  /** The shape of a declared input, or `None` for an unknown name. */
  function GetInputShape(info: NetworkInfo, name: string): (r: Option<seq<Dim>>)
    ensures r.Some? <==> name in info.input.shapes
    ensures r.Some? ==> r.value == info.input.shapes[name]
  {
    Get(info.input.shapes, name)
  }

  /** The element type of a declared output, or `None` for an unknown name. */
  function GetOutputType(info: NetworkInfo, name: string): (r: Option<string>)
    ensures r.Some? <==> name in info.output.types
    ensures r.Some? ==> r.value == info.output.types[name]
  {
    Get(info.output.types, name)
  }

  /** The shape of a declared output, or `None` for an unknown name. */
  function GetOutputShape(info: NetworkInfo, name: string): (r: Option<seq<Dim>>)
    ensures r.Some? <==> name in info.output.shapes
    ensures r.Some? ==> r.value == info.output.shapes[name]
  {
    Get(info.output.shapes, name)
  }

  /**
   * On the signatures read from the session, the getters answer for exactly
   * the declared node names: a node whose name is unique is reported with its
   * own type and shape, and a name no node carries gets `None`.
   */
  lemma GettersOnSessionNodes(inputs: seq<NodeArg>, outputs: seq<NodeArg>, name: string)
    ensures var info := NetworkInfo(ModelIOFromNodes(inputs), ModelIOFromNodes(outputs));
            && (forall i :: (0 <= i < |inputs| && inputs[i].name == name
                  && (forall j :: 0 <= j < |inputs| && j != i ==> inputs[j].name != name)) ==>
                    GetInputType(info, name) == Some(inputs[i].elemType)
                    && GetInputShape(info, name) == Some(inputs[i].shape))
            && (forall i :: (0 <= i < |outputs| && outputs[i].name == name
                  && (forall j :: 0 <= j < |outputs| && j != i ==> outputs[j].name != name)) ==>
                    GetOutputType(info, name) == Some(outputs[i].elemType)
                    && GetOutputShape(info, name) == Some(outputs[i].shape))
            && ((forall i :: 0 <= i < |inputs| ==> inputs[i].name != name) ==>
                  GetInputType(info, name) == None && GetInputShape(info, name) == None)
            && ((forall i :: 0 <= i < |outputs| ==> outputs[i].name != name) ==>
                  GetOutputType(info, name) == None && GetOutputShape(info, name) == None)
  {
    forall i | 0 <= i < |inputs| && inputs[i].name == name
                 && (forall j :: 0 <= j < |inputs| && j != i ==> inputs[j].name != name)
      ensures ModelIOFromNodes(inputs).types[name] == inputs[i].elemType
      ensures ModelIOFromNodes(inputs).shapes[name] == inputs[i].shape
    {
      NodeSignature(inputs, i);
    }
    forall i | 0 <= i < |outputs| && outputs[i].name == name
                 && (forall j :: 0 <= j < |outputs| && j != i ==> outputs[j].name != name)
      ensures ModelIOFromNodes(outputs).types[name] == outputs[i].elemType
      ensures ModelIOFromNodes(outputs).shapes[name] == outputs[i].shape
    {
      NodeSignature(outputs, i);
    }
  }

  // ===========================================================================
  // EncodingConfig

  /**
   * The full contract of one encode call. `maxLength` and `doLowerCase` hold
   * whatever JSON value they were given (`JNull` is `None`).
   */
  datatype EncodingConfig = EncodingConfig(
    addSpecialTokens: bool,
    isSplitIntoWords: bool,
    returnTokenTypeIds: Option<bool>,
    returnAttentionMask: Option<bool>,
    returnOverflowingTokens: bool,
    returnSpecialTokensMask: bool,
    returnOffsetsMapping: bool,
    returnLength: bool,
    paddingStrategy: PaddingStrategy,
    truncationStrategy: TruncationStrategy,
    maxLength: Json,
    stride: int,
    padToMultipleOf: Option<int>,
    paddingDirection: Direction,
    truncationDirection: Direction,
    doLowerCase: Json,
    outputName: string)

  /** `EncodingConfig()` with every field at its declared default. */
  const DefaultEncodingConfig: EncodingConfig :=
    EncodingConfig(
      addSpecialTokens := true,
      isSplitIntoWords := false,
      returnTokenTypeIds := None,
      returnAttentionMask := None,
      returnOverflowingTokens := false,
      returnSpecialTokensMask := false,
      returnOffsetsMapping := false,
      returnLength := false,
      paddingStrategy := Longest,
      truncationStrategy := DoNotTruncate,
      maxLength := JNull,
      stride := 0,
      padToMultipleOf := None,
      paddingDirection := Right,
      truncationDirection := Right,
      doLowerCase := JNull,
      outputName := "embedding")

  /** The legacy spellings of the maximum length, in the order they are tried. */
  const MaxLengthVariations: seq<string> := ["max_len", "model_max_length", "model_max_len", "max_length"]

  /** The index of the first of `keys` present in `m`, if any is. */
  function FirstPresent(keys: seq<string>, m: map<string, Json>): (r: Option<nat>)
    ensures r.Some? ==> r.value < |keys| && keys[r.value] in m
    ensures r.Some? ==> forall j :: 0 <= j < r.value ==> keys[j] !in m
    ensures r.None? <==> forall j :: 0 <= j < |keys| ==> keys[j] !in m
  {
    if keys == [] then None
    else if keys[0] in m then Some(0)
    else
      match FirstPresent(keys[1..], m)
      case None => None
      case Some(i) => Some(i + 1)
  }

  /**
   * `EncodingConfig.from_config`, given the parsed `tokenizer_init.json` or
   * `None` when there is no such file.
   */
  function EncodingFromInit(init: Option<map<string, Json>>): (cfg: EncodingConfig)
    // without the file every field keeps its default
    ensures init.None? ==> cfg == DefaultEncodingConfig
    // only the maximum length, the truncation strategy and the lowercase flag can differ from the defaults
    ensures cfg.(maxLength := JNull, truncationStrategy := DoNotTruncate, doLowerCase := JNull) == DefaultEncodingConfig
    // the first spelling present sets the maximum length and forces longest-first truncation
    ensures init.Some? ==> forall i :: (0 <= i < |MaxLengthVariations| && MaxLengthVariations[i] in init.value
              && (forall j :: 0 <= j < i ==> MaxLengthVariations[j] !in init.value)) ==>
                cfg.maxLength == init.value[MaxLengthVariations[i]] && cfg.truncationStrategy == LongestFirst
    // truncation is switched on exactly when some spelling is present, whatever its value
    ensures init.Some? ==> (cfg.truncationStrategy == LongestFirst <==> exists k :: k in MaxLengthVariations && k in init.value)
    ensures cfg.truncationStrategy == DoNotTruncate ==> cfg.maxLength == JNull
    // a file with none of the spellings leaves the maximum length and the truncation strategy at their defaults
    ensures init.Some? && (forall k :: k in MaxLengthVariations ==> k !in init.value) ==>
              cfg.maxLength == JNull && cfg.truncationStrategy == DoNotTruncate
    // the lowercase flag is copied only when present
    ensures init.Some? && "do_lower_case" in init.value ==> cfg.doLowerCase == init.value["do_lower_case"]
    ensures (init.None? || "do_lower_case" !in init.value) ==> cfg.doLowerCase == JNull
  {
    match init
    case None => DefaultEncodingConfig
    case Some(m) =>
      var withMax :=
        match FirstPresent(MaxLengthVariations, m)
        case None => DefaultEncodingConfig
        case Some(i) => DefaultEncodingConfig.(maxLength := m[MaxLengthVariations[i]], truncationStrategy := LongestFirst);
      if "do_lower_case" in m then withMax.(doLowerCase := m["do_lower_case"]) else withMax
  }

  /**
   * `from_config` as the source writes it: start from the defaults, try the
   * spellings in order and stop at the first hit, then copy the lowercase flag.
   */
  method FromConfig(init: Option<map<string, Json>>) returns (cfg: EncodingConfig)
    ensures cfg == EncodingFromInit(init)
  {
    cfg := DefaultEncodingConfig;
    if init.Some? {
      var config := init.value;
      var variations := MaxLengthVariations;
      var i := 0;
      while i < |variations|
        invariant 0 <= i <= |variations|
        invariant FirstPresent(variations, config) == (match FirstPresent(variations[i..], config)
                                                        case None => None
                                                        case Some(k) => Some(k + i))
        invariant cfg == DefaultEncodingConfig
      {
        if variations[i] in config {
          cfg := cfg.(maxLength := config[variations[i]], truncationStrategy := LongestFirst);
          break;
        }
        assert variations[i..][1..] == variations[i + 1..];
        i := i + 1;
      }
      if "do_lower_case" in config {
        cfg := cfg.(doLowerCase := config["do_lower_case"]);
      }
    }
  }

  /** A present `max_len` decides the maximum length whatever the later spellings hold. */
  lemma MaxLenTakesPrecedence(m: map<string, Json>, m': map<string, Json>)
    requires "max_len" in m && "max_len" in m' && m["max_len"] == m'["max_len"]
    requires ("do_lower_case" in m <==> "do_lower_case" in m')
    requires "do_lower_case" in m ==> m["do_lower_case"] == m'["do_lower_case"]
    ensures EncodingFromInit(Some(m)) == EncodingFromInit(Some(m'))
    ensures EncodingFromInit(Some(m)).maxLength == m["max_len"]
  {
  }

  // ===========================================================================
  // ModelConfig

  /** The parsed `config.json` of a model directory, with its path recorded. */
  datatype ModelConfig = ModelConfig(data: map<string, Json>)

  /** The `config_path` property: `self["config_path"]`. */
  function ConfigPath(mc: ModelConfig): (r: Result<Json>)
    ensures r.Ok? <==> "config_path" in mc.data
    ensures r.Ok? ==> r.value == mc.data["config_path"]
    ensures r.Err? ==> r.error == KeyError("config_path")
  {
    if "config_path" in mc.data then Ok(mc.data["config_path"]) else Err(KeyError("config_path"))
  }

  /**
   * `ModelConfig.from_path`: asserts that `config.json` exists (`configJson`
   * is `None` when it does not), records the directory under `config_path`,
   * overriding a key of that name, and copies the dict into a fresh config.
   */
  method FromPath(configPath: string, configJson: Option<map<string, Json>>) returns (r: Result<ModelConfig>)
    ensures configJson.None? ==> r == Err(AssertionError("no config file found at " + configPath))
    ensures configJson.Some? ==> r.Ok?
    ensures r.Ok? ==> ConfigPath(r.value) == Ok(JString(configPath))
    ensures r.Ok? ==> r.value.data.Keys == configJson.value.Keys + {"config_path"}
    ensures r.Ok? ==> forall k :: k in configJson.value && k != "config_path" ==> r.value.data[k] == configJson.value[k]
  {
    if configJson.None? {
      return Err(AssertionError("no config file found at " + configPath));
    }
    var config := configJson.value;
    config := config["config_path" := JString(configPath)];
    var modelConfig: map<string, Json> := map[];
    modelConfig := modelConfig + config;
    return Ok(ModelConfig(modelConfig));
  }
}
