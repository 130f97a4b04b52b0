# onnx-transformers: configuration and lookup layer, in Dafny

This project models the layer of `onnx_transformers` that sits between the ONNX
inference session and the tokenizer, and the rules that pick what a model call
returns:

- **Special-token resolution.** `TokenizerConfig._get_token` resolves a role
  (`cls`, `pad`, `sep`, `eos`, `unk`, `bos`, `mask`) in a tokenizer
  descriptor. It first tries the role's own key. Otherwise it scans
  `added_tokens` for the first entry whose `content` is one of the role's
  aliases. `SpecialTokensMixin` then projects the `id` and the `content` of the
  resolved entry.
- **Default encoding configuration.** `EncodingConfig.from_config` starts from
  the declared defaults. The first legacy maximum-length key found in
  `tokenizer_init.json` sets `max_length` and turns on longest-first
  truncation. `do_lower_case` is copied when present.
- **Enumerations.** `TruncationStrategy` and `PaddingStrategy` look a value up
  exactly. Any other value raises a `ValueError` that lists the valid values.
- **Network signature and model configuration.** The `NetworkInfo` getters and
  `ModelConfig.from_path`, which records `config_path`.
- **Output selection.** In `ModelForEncoding.__call__`, a single output is
  returned as is. Several outputs are looked up by `output_name`. The result is
  squeezed when the batch is not a list. `get_output_dim` falls back to the
  configuration's `dim` when the declared dimension is symbolic.

Python values are the JSON values they were loaded from (`PyValues.Json`), and
JSON `null` stands for `None`. Each exception the code can raise is an `Error`
inside a `Result`. The JSON files are not read: each parsed file, or `None` for
a missing file, is a parameter. The tokenizer and the inference session are
collaborators. A call receives them as a function `run` from the batch and the
effective configuration to the raw outputs. Tensors are an opaque type
parameter, and numpy's `squeeze` is a function parameter about which nothing is
assumed.

Files: `py_values.dfy` holds JSON values, errors, dict lookup and zip-to-dict.
`enums.dfy` holds the enumerations. `types.dfy` holds `Direction` and the batch
shapes. `spi_model.dfy` holds `TokenizerConfig`, `NetworkInfo`,
`EncodingConfig` and `ModelConfig`. `special_tokens_mixin.dfy` holds the
special-token accessors. `model_for_encoding.dfy` holds `ModelForEncoding`.

Behaviours of the code that the model keeps as written:

- Special-token resolution can raise. With neither the role key nor
  `added_tokens`, `self["added_tokens"]` raises `KeyError`
  (onnx_transformers/__spi__/model.py:38), and the model returns
  `Err(KeyError("added_tokens"))`.
- The outer loop of `_get_token` runs over the `added_tokens` entries and the
  inner loop over the aliases (onnx_transformers/__spi__/model.py:38-41). So the
  earliest matching entry wins, even when it matches a later alias
  (`SpiModel.EarliestEntryWins`).
- A model with several outputs always returns the one output named
  `output_name`, squeezed or not (onnx_transformers/model_for_encoding.py:33-36).
  It never returns the whole mapping.
- A direct role key whose value is JSON `null` resolves to `None`. A maximum-length
  key whose value is `null` still turns on longest-first truncation and leaves
  `max_length` at `None`. In both cases the model stores the value found,
  whatever its JSON type.

## Model

| member | source | states |
|---|---|---|
| `PyValues.Get` | onnx_transformers/__spi__/model.py:124-125 | `m[k] if k in m else None`: a value exactly when the key is present, and then the mapped one |
| `PyValues.Subscript` | onnx_transformers/__spi__/model.py:40 | `v[key]` succeeds exactly on a dict holding the key. A dict without it raises `KeyError(key)`. Any other value raises `TypeError` |
| `PyValues.ZipMap` | onnx_transformers/model_for_encoding.py:34 | the dict built from `zip(names, outputs)` has exactly the names within the shorter length as keys |
| `PyValues.ZipMapAt` | onnx_transformers/model_for_encoding.py:34 | a name maps to the value at its last position among the zipped pairs (a later duplicate overwrites) |
| `Enums.Values` | onnx_transformers/__spi__/enums.py:12 | the valid values are listed in declaration order, one per member |
| `Enums.Find` | onnx_transformers/__spi__/enums.py:9-13 | the member found has the looked-up value. Nothing is found exactly when no member has it |
| `Enums.Lookup` | onnx_transformers/__spi__/enums.py:9-13 | a value is accepted exactly when it is a member's value. Otherwise the `ValueError` carries the value, the enumeration's name and every valid value |
| `Enums.FindEarliest` | onnx_transformers/__spi__/enums.py:9-13 | the first member in declaration order that carries a value is the one found |
| `Enums.LookupRoundTrip` | onnx_transformers/__spi__/enums.py:9-13 | with distinct values, looking up a member's value gives that member back |
| `Enums.ParseTruncationStrategy` | onnx_transformers/__spi__/enums.py:16-25 | exactly `only_first`, `only_second`, `longest_first`, `do_not_truncate` are accepted, each giving the member with that value. Anything else raises `ValueError` listing those four in order |
| `Enums.ParsePaddingStrategy` | onnx_transformers/__spi__/enums.py:28-36 | exactly `longest`, `max_length`, `do_not_pad` are accepted. Anything else raises `ValueError` listing those three in order |
| `Enums.TruncationRoundTrip` | onnx_transformers/__spi__/enums.py:22-25 | parsing a member's value returns that member, and distinct members have distinct values |
| `Enums.Message` | onnx_transformers/__spi__/enums.py:11-13 | the `ValueError` text is `<value> is not a valid TruncationStrategy, please select one of ['only_first', 'only_second', 'longest_first', 'do_not_truncate']`, and the same with `PaddingStrategy` and `['longest', 'max_length', 'do_not_pad']` |
| `Enums.TruncationValuesRepr` | onnx_transformers/__spi__/enums.py:12 | the four truncation values render as Python lists them: `['only_first', 'only_second', 'longest_first', 'do_not_truncate']` |
| `Enums.PaddingValuesRepr` | onnx_transformers/__spi__/enums.py:12 | the three padding values render as `['longest', 'max_length', 'do_not_pad']` |
| `Enums.PaddingRoundTrip` | onnx_transformers/__spi__/enums.py:34-36 | parsing a member's value returns that member, and distinct members have distinct values |
| `SpiModel.MatchesAny` | onnx_transformers/__spi__/model.py:39-41 | the alias loop for one entry raises exactly when there is an alias and the entry has no `content`. Otherwise it reports whether `content` is one of the aliases |
| `SpiModel.ScanEntries` | onnx_transformers/__spi__/model.py:38-43 | the scan of a list returns a matching entry of the list, or `None` only when every entry was compared without a match, or raises the subscript error of an entry without `content` |
| `SpiModel.ScanAddedTokens` | onnx_transformers/__spi__/model.py:38 | a list is scanned entry by entry. A string or a dict gives `None` exactly when it is empty or there are no aliases, and otherwise `TypeError`. Any other value raises `TypeError` |
| `SpiModel.ResolveToken` | onnx_transformers/__spi__/model.py:34-43 | a direct key is returned unchanged, without looking at `added_tokens`. With neither the key nor `added_tokens`, the lookup raises `KeyError` |
| `SpiModel.GetToken` | onnx_transformers/__spi__/model.py:34-43 | the nested loops with early return compute exactly the lookup `ResolveToken` specifies |
| `SpiModel.ScanStopsAtFirst` | onnx_transformers/__spi__/model.py:38-43 | the scan stops at the first entry that matches or cannot be compared. Every earlier entry is a non-match. A match returns that entry, a failed comparison raises its error, and running off the end gives `None` |
| `SpiModel.EarliestEntryWins` | onnx_transformers/__spi__/model.py:38-41 | the earliest matching entry in `added_tokens` order is returned, whichever alias it matches |
| `SpiModel.NoMatchIsNone` | onnx_transformers/__spi__/model.py:43 | when no entry's `content` is an alias, the result is `None` |
| `SpiModel.ScanResult` | onnx_transformers/__spi__/model.py:38-41 | a non-`None` scan result is an entry of the list whose `content` is an alias |
| `SpiModel.ResolveRole` | onnx_transformers/__spi__/model.py:45-71 | each role property returns its own key's value when present and raises `KeyError` with neither that key nor `added_tokens`. A token it finds through `added_tokens` is a list entry matching the role's aliases |
| `SpiModel.RolesAreDistinct` | onnx_transformers/__spi__/model.py:45-71 | the seven roles have distinct keys and pairwise disjoint alias lists |
| `SpiModel.AddedTokenRole` | onnx_transformers/__spi__/model.py:45-71 | a role property resolved through `added_tokens` returns an entry of that list whose `content` is one of that role's aliases |
| `SpiModel.ModelIOFromNodes` | onnx_transformers/abstract_model.py:57-67 | the signature lists the node names in order, and every name, and no other, has a type and a shape |
| `SpiModel.NodeSignature` | onnx_transformers/abstract_model.py:63-65 | a node whose name is unique is described by its own type and shape |
| `SpiModel.GetInputType` | onnx_transformers/__spi__/model.py:124-125 | the declared type for a known input name, `None` for an unknown one |
| `SpiModel.GetInputShape` | onnx_transformers/__spi__/model.py:127-128 | the declared shape for a known input name, `None` for an unknown one |
| `SpiModel.GetOutputType` | onnx_transformers/__spi__/model.py:133-134 | the declared type for a known output name, `None` for an unknown one |
| `SpiModel.GetOutputShape` | onnx_transformers/__spi__/model.py:136-137 | the declared shape for a known output name, `None` for an unknown one |
| `SpiModel.GettersOnSessionNodes` | onnx_transformers/__spi__/model.py:121-137 | on signatures read from the session, a uniquely named node is reported with its own type and shape, and a name no node carries gets `None` |
| `SpiModel.FirstPresent` | onnx_transformers/__spi__/model.py:175-179 | the index found is that of a present key with every earlier key absent. There is none exactly when no key is present |
| `SpiModel.EncodingFromInit` | onnx_transformers/__spi__/model.py:160-183 | without the file, the result is exactly the defaults. Otherwise the first present spelling sets `max_length`. Truncation becomes longest-first exactly when some spelling is present, whatever its value. `do_lower_case` is copied only when present. No other field leaves its default |
| `SpiModel.FromConfig` | onnx_transformers/__spi__/model.py:160-183 | the loop over the spellings with `break` builds exactly the configuration `EncodingFromInit` specifies |
| `SpiModel.MaxLenTakesPrecedence` | onnx_transformers/__spi__/model.py:166-179 | when `max_len` is present, the later spellings are ignored |
| `SpiModel.ConfigPath` | onnx_transformers/__spi__/model.py:189-191 | `config_path` is the recorded value, and `KeyError` when none is recorded |
| `SpiModel.FromPath` | onnx_transformers/__spi__/model.py:193-200 | a missing `config.json` fails the assertion. Otherwise `config_path` is the given path, overriding a same-named key, and every other key keeps its JSON value |
| `SpecialTokensMixin.Project` | onnx_transformers/tokenizer/mixin/special_tokens_mixin.py:22-23 | `token[key] if token is not None else None`, passing on a lookup error |
| `SpecialTokensMixin.TokenId` | onnx_transformers/tokenizer/mixin/special_tokens_mixin.py:14-115 | `X_token_id` is the resolved entry's `id`, and `None` when the role resolves to nothing |
| `SpecialTokensMixin.TokenContent` | onnx_transformers/tokenizer/mixin/special_tokens_mixin.py:14-115 | `X_token` is the resolved entry's `content`, and `None` when the role resolves to nothing |
| `SpecialTokensMixin.PadTokenTypeId` | onnx_transformers/tokenizer/mixin/special_tokens_mixin.py:117-122 | always 0, whatever the descriptor holds |
| `SpecialTokensMixin.IdAndContentAgree` | onnx_transformers/tokenizer/mixin/special_tokens_mixin.py:22-32 | the id and the content come from the same resolved entry. Both are `None` when the role resolves to nothing |
| `SpecialTokensMixin.AddedTokenContent` | onnx_transformers/tokenizer/mixin/special_tokens_mixin.py:101-115 | a token found through `added_tokens` has one of the role's aliases as its text, and its id is that of a matching entry |
| `EncodingModel.Squeezes` | onnx_transformers/model_for_encoding.py:25 | squeezing happens exactly for a single text or a single pair, never for a list |
| `EncodingModel.EffectiveConfig` | onnx_transformers/model_for_encoding.py:24 | a supplied configuration is used whole. Without one, the model's own is used |
| `EncodingModel.SelectOutput` | onnx_transformers/model_for_encoding.py:30-36 | one output is returned whatever `output_name` says. With several, the call succeeds exactly when `output_name` is among the zipped names, and otherwise raises `KeyError(output_name)` |
| `EncodingModel.SelectByName` | onnx_transformers/model_for_encoding.py:33-36 | with several outputs, the output at the position declared under `output_name` is returned, squeezed if requested |
| `EncodingModel.SingleOutputIgnoresName` | onnx_transformers/model_for_encoding.py:30-31 | with one output, the result does not depend on `output_name` |
| `EncodingModel.OutputDim` | onnx_transformers/model_for_encoding.py:38-53 | the first output's dimension 1 when it is a number. When it is symbolic, the configuration's `dim`, failing the assertion when there is none. `IndexError` when there is no output or no dimension 1 |
| `EncodingModel.OutputDimFromNodes` | onnx_transformers/model_for_encoding.py:45-53 | on a session signature, the dimension is the first node's own second dimension, or the configured `dim` when that one is symbolic |
| `EncodingModel.ModelForEncoding.constructor` | onnx_transformers/model_for_encoding.py:16-21 | the model keeps the loaded configuration with its path, the output signature and the encoding configuration derived from `tokenizer_init.json` |
| `EncodingModel.ModelForEncoding.Call` | onnx_transformers/model_for_encoding.py:23-36 | the encoder receives the supplied configuration, or the model's own when none is supplied. The result is selected by that configuration's `output_name` and squeezed exactly when the batch is not a list |
| `EncodingModel.ModelForEncoding.GetOutputDim` | onnx_transformers/model_for_encoding.py:38-53 | the model's dimension is dimension 1 of its first declared output when that is a number. When it is symbolic, the configuration's `dim`, or the assertion failure without one. `IndexError` when the model has no output or the first output has no dimension 1 |

## Left out

- Tokenisation (`FastTokenizer.encode`) and inference (`AbstractModel.execute`, IO binding, the `InferenceSession`) are abstracted. A call receives them as the function `run`. Their padding, truncation, stride and overflow behaviour is not visible in the modelled code.
- The execution-provider choice (`optimization == "cuda"` selects CUDA, onnx_transformers/abstract_model.py:23) and `ModelInfo.from_file` are not modelled. Both only feed the inference session.
- `ModelForCrossEncoding` is not modelled. Its `__call__` calls itself instead of the superclass (onnx_transformers/model_for_cross_encoding.py:22), so every call raises `RecursionError`. Its sigmoid post-processing (`__util__/array_util.py`) is floating point.
- File reading (`open`, `json.load`, `isfile`, `exists`, `file_util.from_json`) is not modelled. Each parsed file is a parameter. A JSON document that does not parse is not modelled. Neither is a `tokenizer_init.json` or a `config.json` whose top level is not an object: for `config.json`, the assignment `config["config_path"] = ...` (onnx_transformers/__spi__/model.py:197) would then raise `TypeError`, and `SpiModel.FromPath` takes the parsed file as a dict.
- JSON floating-point numbers are not modelled, and neither is the key order of JSON objects. When `added_tokens` is a dict or a string, every iterated element is a string, so the model treats it by its emptiness alone.
- Tensor contents and numpy `squeeze` are opaque. `squeeze` is a parameter with no assumed properties.
- A shape dimension that the session reports as `None` is not modelled. Dimensions are numbers or symbolic names.
- `EncodingModel.ModelForEncoding.constructor` takes an already-parsed `config.json`. A missing file is the assertion failure `SpiModel.FromPath` models, which construction would propagate.
- Logging calls and the `EncodingFast` placeholder class are not modelled. `GetInputNames` and `GetOutputNames` return the declared name lists unchanged and carry no contract.
- `Enums.Message` builds the `ValueError` text with single-quoted values as Python's list rendering does. That holds for the enumeration values, which contain no quotes or backslashes. Enumeration lookups take strings only, not values of other Python types.
