# Weight-conversion argument resolution, modelled in Dafny

This project models the argument resolution pipeline of MLC LLM's `convert_weight`
command (`python/mlc_llm/cli/convert_weight.py`). The pipeline turns the raw
command line into the one call made to the conversion engine:

- **LoRA adapter mapping** (`LoRAPathAction`). Each `--lora-paths` token is either a bare path
  or a `name=path` pair, split at its first `=`. Each path must exist. The
  adapters are inserted in order into a dictionary, so a later duplicate name overwrites an earlier one.
- **Source and output paths** (`_parse_source`, `_parse_output`). The source
  `"auto"` means the config file's directory. Any other source must exist. The
  output is made a directory, creating missing parents; an existing directory is left alone.
- **Orchestration** (`main`). `parse_args` runs config detection, the choices
  checks, device detection, output creation and the LoRA action. Then the source is
  resolved, `detect_weight` runs, then `detect_model_type`. Finally `convert_weight` is
  called once, with the quantization scheme looked up in the registry.

Files:

- `wrappers.dfy`: modules `Wrappers` (`Option`, `Result`, `Outcome`) and `Errors`, the error kinds.
- `paths.dfy`: module `Paths`. Paths are strings and `Parent` models `Path.parent`. `FsState` and the
  `FileSystem` class model the filesystem as the set of existing paths and its subset of
  directories. `AfterMkdir` models `mkdir(parents=True, exist_ok=True)`.
- `lora.dfy`: module `Lora`. It holds the first-`=` split, the adapter dictionary `AdapterMap`, and
  `ParseAdapters`, which gives the outcome of the LoRA action as a value.
- `cli.dfy`: module `Cli`. It holds the option values, the registries and detectors (`Env`), the
  `Namespace` class with the LoRA action, `ParseArgs`, and `RunCommand` (the body of `main`), which records the steps it starts (`Run`).

The external detectors (`detect_config`, `detect_device`, `detect_weight`,
`detect_model_type`) are parameters of type function, held in `Env`. They return a value or an
error. `QUANTIZATION` is a map from name to scheme, and `MODELS` is its key set. Device, model and scheme
objects are known only by name.

## Model

| member | source | states |
|---|---|---|
| `Paths.Parent` | python/mlc_llm/cli/convert_weight.py:22 | `config_path.parent`: "." when there is no '/', otherwise the path cut just before its last '/', or "/" when that last '/' is the first character |
| `Paths.Lineage` | python/mlc_llm/cli/convert_weight.py:31 | the set of directories `mkdir(parents=True)` deals with contains the path and its parent, and nothing but the path, "." (only when the path is relative) and prefixes of the path that end where one of its '/' begins (or the root "/") |
| `Paths.LineageClosed` | python/mlc_llm/cli/convert_weight.py:31 | the parent of every member of a lineage is in that lineage, so creating the lineage creates every missing parent |
| `Paths.DirLineage` | python/mlc_llm/cli/convert_weight.py:30-31 | in a well-formed filesystem, every ancestor of a directory is a directory |
| `Paths.AfterMkdir` | python/mlc_llm/cli/convert_weight.py:31 | the filesystem after `mkdir(parents=True, exist_ok=True)`: the lineage added to the entries and the directories, or `PathCreationError` when a lineage member exists as a non-directory. No contract of its own; its properties are stated by `MkdirMakesDirectory`, `MkdirOnDirectory` and `MkdirIdempotent` |
| `Paths.MkdirMakesDirectory` | python/mlc_llm/cli/convert_weight.py:31 | a successful `mkdir(parents=True, exist_ok=True)` keeps the filesystem well formed and makes the path and all its ancestors directories; it removes nothing and adds nothing outside the lineage |
| `Paths.MkdirOnDirectory` | python/mlc_llm/cli/convert_weight.py:31 | with `exist_ok=True`, mkdir on an existing directory succeeds and changes nothing |
| `Paths.MkdirIdempotent` | python/mlc_llm/cli/convert_weight.py:31 | a second identical mkdir succeeds and changes nothing |
| `Paths.FileSystem.Mkdir` | python/mlc_llm/cli/convert_weight.py:31 | the new filesystem state is `AfterMkdir` of the old one; on failure nothing changes and the error names the path |
| `Paths.FileSystem.IsDir` | python/mlc_llm/cli/convert_weight.py:30 | `Path.is_dir()`: membership in the current directories. No contract of its own; `ParseOutput` calls mkdir exactly when it is false |
| `Lora.FirstIndex` | python/mlc_llm/cli/convert_weight.py:44-45 | finds the first occurrence of '=': none exactly when the token has no '=', otherwise an index holding '=' with no '=' before it |
| `Lora.SplitAtFirst` | python/mlc_llm/cli/convert_weight.py:45 | `split("=", 1)`: the name has no '=', and name + "=" + path rebuilds the token, so the path may itself contain '=' |
| `Lora.AdapterOf` | python/mlc_llm/cli/convert_weight.py:44-48 | a token with '=' splits at its first '='; a token without '=' is both the name and the path |
| `Lora.SplitJoin` | python/mlc_llm/cli/convert_weight.py:44-45 | the inverse direction: for a name without '=', splitting `name=path` gives back exactly that name and path |
| `Lora.RenamedAdapter` | python/mlc_llm/cli/convert_weight.py:44-46 | the token `name=path` denotes the adapter (name, path) |
| `Lora.AdapterMap` | python/mlc_llm/cli/convert_weight.py:42-48 | the dictionary the action's loop builds from the tokens. No contract of its own; its properties are stated by `AdapterMapAppend`, `AdapterMapKeys`, `AdapterMapLastWins` and `AdapterMapValues` |
| `Lora.AdapterMapAppend` | python/mlc_llm/cli/convert_weight.py:46-48 | inserting one more token sets its name to its path and leaves every other entry unchanged |
| `Lora.AdapterMapKeys` | python/mlc_llm/cli/convert_weight.py:42-48 | the dictionary's keys are exactly the names of the input tokens |
| `Lora.AdapterMapLastWins` | python/mlc_llm/cli/convert_weight.py:43-48 | for a duplicate name, the value is the path of the last token with that name |
| `Lora.AdapterMapValues` | python/mlc_llm/cli/convert_weight.py:43-48 | every value in the dictionary is the path of one of the tokens, stored under that token's name |
| `Lora.MissingAt` | python/mlc_llm/cli/convert_weight.py:35-39 | locates the first token whose path does not exist: none exactly when every path exists |
| `Lora.MissingAtFirst` | python/mlc_llm/cli/convert_weight.py:43-48 | a missing path with only existing paths before it is the one the loop stops at |
| `Lora.ParseAdapters` | python/mlc_llm/cli/convert_weight.py:35-48 | the outcome of the LoRA action: the dictionary, or the "does not exist" error of the first missing path. No contract of its own; its properties are stated by `ParseAdaptersSpec`, `ParseTwo` and `TwoRenamedAdapters` |
| `Lora.ParseAdaptersSpec` | python/mlc_llm/cli/convert_weight.py:35-48 | the action succeeds iff every token's path exists. On success the keys are the token names and every value exists. On failure there is no dictionary, and the error names the path of the first missing token |
| `Lora.ParseTwo` | python/mlc_llm/cli/convert_weight.py:42-48 | two tokens whose paths exist give the empty dictionary updated with the first adapter, then the second |
| `Lora.TwoRenamedAdapters` | python/mlc_llm/cli/convert_weight.py:96-103 | `--lora-paths adapterA=/a/weights adapterB=/b/weights` gives `{adapterA: /a/weights, adapterB: /b/weights}` |
| `Cli.FormatNamed` | python/mlc_llm/cli/convert_weight.py:82-88 | the `--source-format` choices check: accepted exactly for the four choices, and the format read back has the given name |
| `Cli.ExistingPath` | python/mlc_llm/cli/convert_weight.py:35-39 | `parse_path`, with `Path.exists()` as membership in the filesystem's entries: succeeds with the path itself exactly when it exists, otherwise fails with "does not exist" naming the path |
| `Cli.ResolveSource` | python/mlc_llm/cli/convert_weight.py:20-26 | `"auto"` gives the config's parent with no existence check. Any other path is returned unchanged if it exists, otherwise it fails naming the path |
| `Cli.ResolvedSourceExists` | python/mlc_llm/cli/convert_weight.py:20-26 | in a well-formed filesystem with an existing config, a resolved source exists, and for `"auto"` it is a directory |
| `Cli.AutoSourceBesideConfig` | python/mlc_llm/cli/convert_weight.py:21-22 | `--source auto` with the config at `/m/config.json` resolves to `/m`, whatever exists |
| `Cli.OutputCreated` | python/mlc_llm/cli/convert_weight.py:28-32 | the filesystem effect of `_parse_output`: unchanged when the path is a directory, otherwise `AfterMkdir`. No contract of its own; its properties are stated by `OutputCreatedSpec` |
| `Cli.OutputCreatedSpec` | python/mlc_llm/cli/convert_weight.py:28-32 | `_parse_output` leaves an existing directory untouched. It fails only when a member of the lineage exists as a non-directory. On success, the path and its parents are directories, only the lineage was added, and a second call changes nothing |
| `Cli.ParseOutput` | python/mlc_llm/cli/convert_weight.py:28-32 | returns the path; the filesystem becomes `OutputCreated` of the old one; on failure it is unchanged |
| `Cli.Namespace.ApplyLoraPaths` | python/mlc_llm/cli/convert_weight.py:41-48 | resets the field to an empty dictionary and inserts the tokens in order. It succeeds exactly when `ParseAdapters` does, and the field is then `AdapterMap(values)`. On failure it returns the `ParseAdapters` error, and the field holds the tokens before the first missing one |
| `Cli.CheckOptions` | python/mlc_llm/cli/convert_weight.py:50-95 | the required options, the config and device type callbacks and the three choices checks pass exactly when each holds. The stored values are the detected config and device, and a quantization key that is in the registry |
| `Cli.LoraField` | python/mlc_llm/cli/convert_weight.py:96-103 | an omitted `--lora-paths` stays `None`, which is distinct from an empty token list, which gives an empty dictionary |
| `Cli.ParseArgs` | python/mlc_llm/cli/convert_weight.py:50-110 | succeeds exactly when every parse-time check passes. The namespace then holds the detected values, the output is a directory and every LoRA path exists. On failure the filesystem is unchanged or has only the output lineage created |
| `Cli.ConversionAtMostOnce` | python/mlc_llm/cli/convert_weight.py:110-127 | under fail-fast ordering, `convert_weight` is called once on success, never on failure, and always last |
| `Cli.ResolveAndConvert` | python/mlc_llm/cli/convert_weight.py:111-127 | after parsing: source resolution, then `detect_weight` on the resolved source, then `detect_model_type`. Each step starts only if the previous one succeeded, and the run's error is the failing step's error. The single call receives `QUANTIZATION[quantization]` and the source and format returned by `detect_weight`. Once `detect_weight` succeeds, the namespace's `source` and `source_format` hold its results; before that they are unchanged |
| `Cli.RunCommand` | python/mlc_llm/cli/convert_weight.py:110-127 | steps start in pipeline order, and no step starts after a failure. Parsing must succeed before source resolution. The one `convert_weight` call receives the detected config, device and model, the registry scheme, the detected source and concrete format, the LoRA field and the output |

## Left out

- argparse's tokenising of argv, repeated options, help text and the `mlc_llm.support.argparse.ArgumentParser` subclass (not part of this model). The command line is a record with at most one value per option, and omitted options hold their declared defaults.
- The order in which argparse runs type callbacks depends on argv. `ParseArgs` processes the options in declaration order. Its contract does not say which error wins when several options are invalid, and it does not say whether the output directory was created before a failure. The LoRA existence check is made against the filesystem after output creation, which matches argv with `--output` before `--lora-paths`.
- The bodies of `detect_config`, `detect_device`, `detect_weight`, `detect_model_type` and `convert_weight`, and the contents of `QUANTIZATION` and `MODELS`. The detectors are fixed functions of their arguments, and the files and hardware they inspect are not modelled. `convert_weight` is represented by the arguments it receives. That the format handed to `convert_weight` is never `auto` comes from the declared result type of `detect_weight` in the model (`Weight.format` is a `ConcreteFormat`), not from a proof about the detector.
- Lora.AdapterMap: the dictionary is a `map`, so its insertion order is not modelled. In the code, a name given twice keeps the position of its first token, and `convert_weight` receives the dictionary in that order. The model promises the contents only.
- Cli.Namespace.ApplyLoraPaths: for the same reason, the order of the LoRA dictionary stored in the namespace and passed on in `ConvertCall` is not modelled, only its contents.
- `pathlib` normalisation (trailing or doubled slashes, `Path("")`), permissions and other OS causes of a failed `mkdir`. Only a non-directory in the way makes creation fail.
- Exception classes and message texts. argparse reports a type-callback error as a usage error, but lets an error raised inside the LoRA action or by `mkdir` propagate. Here all of them are an `Error` value that ends the run.

## Notes on the code

- There is no separate error kind for a missing LoRA path. The code raises the same "Model source does not exist: <path>" error for LoRA paths as for `--source`, naming only the path (`convert_weight.py:38`). The model follows the code: `SourceNotFound(path)`.
- A missing `--source` can leave an output directory behind. `_parse_output` runs as a type callback inside `parse_args` (`convert_weight.py:92`, `110`), before `_parse_source` (`convert_weight.py:112`). So the output directory can already exist when the source check fails. The model follows the code: `RunCommand` guarantees, at that point, that the output has been created.
- For the same reason, the model does not claim that an unknown quantization fails before any path work. Device detection also happens during parsing, not after model-type detection.
