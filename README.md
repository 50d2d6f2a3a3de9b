# nitro-webpack-compiler: the configuration pipeline in Dafny

This project models how nitro-webpack-compiler prepares a webpack configuration.
It covers three steps:

- **Selecting the configuration file** (`lib/resolve-config.js`).
  - `resolveWebpackConfig` matches the names found in a directory against
    `^webpack\.config\.(?:([^.]+)\.|)[^.]+$`.
  - It builds a map from tag to joined path, and later names overwrite earlier ones.
  - It looks up the requested tag. An absent or empty type means the tag `''`.
  - `loadConfig` turns a miss into an error with a fixed message. Otherwise it
    returns what the module loader yields.
- **Enhancing the configuration** (`lib/enhance-config.js`).
  - `addBase` defaults `context` to the project root.
  - `addDevTools` defaults `devtool` and appends the CSS source map and hot module
    replacement plugins.
  - `addDevTools` also puts the hot-reload client, built by
    `_prependHotModuleReplacement`, in front of every entry point.
- **Assembling the base configuration** (`lib/base-config.js`).
  - `getBaseConfig` takes the caller's configuration when one is given.
  - Otherwise it loads the one in `<root>/project/webpack` for the requested type.
  - It then always applies `addBase`.

Files:

- `wrappers.dfy`: `Option` and `Result`.
- `config_model.dfy` (module `ConfigModel`): the configuration object.
  - `Config` is a class with fields `context`, `devtool`, `plugins`, `entry` and the
    map `rest` of every other key.
  - `plugins` refers to a `PluginList` object.
  - An array or object `entry` refers to an `EntryList` or `EntryMap` object.
  - Both enhancers start with `_.clone`, a shallow copy (`Config.Clone`). So the
    copy and the caller's object share those containers, and `addDevTools` pushes
    plugins and rewrites entries in the caller's object too.
  - `View()` takes a snapshot of the contents. Every operation is specified by a
    function on snapshots.
- `enhance_config.dfy` (module `EnhanceConfig`):
  - the mount-path and client-entry functions;
  - the snapshot functions `DevToolsView`, `CallerViewAfterDevTools` and
    `WithDefaultContext`;
  - the methods `AddDevTools` and `AddBase`; the `typeof entry` branch of
    `addDevTools` and its two in-place `forEach` loops are methods of their own;
  - lemmas about all of these.
- `resolve_config.dfy` (module `ResolveConfig`):
  - the file-name pattern as a total parser, `ParseConfigName`, and its inverse,
    `ConfigFileName`;
  - `LastTagged`, which gives "last match wins";
  - the loop method `ResolveWebpackConfig`, proved against `Resolved`;
  - the not-found message and `LoadConfig`.
- `base_config.dfy` (module `BaseConfig`): `GetBaseConfig`.

Foreign code is passed in as parameters:

- The directory listing found by `globule.find` is a `seq<string>`.
- `path.join` is a function `join`.
- `require` is a function `require` from a path to a `Result<Config, Error>`.
  A failure stands for a module that does not load.
- The `webpack-validator` check is a predicate `validate` on snapshots.

Two details of the code shape the model:

- "Set" means truthy. For example, an empty-string `context` is replaced.
- An array `entry` takes the object branch, so each of its elements is wrapped
  separately.

## Model

| member | source | states |
|---|---|---|
| `ConfigModel.Config.Clone` | lib/enhance-config.js:29 | `_.clone` gives a new object with the same property values, and the `plugins` and `entry` containers are the same references |
| `ConfigModel.PluginList.Push` | lib/enhance-config.js:36-38 | a push appends exactly one plugin at the end of the shared array |
| `ConfigModel.Truthy` | lib/enhance-config.js:31-34 | a value is falsy exactly when it is `undefined`, `null`, `false`, `0` or `''`; arrays, objects and functions are truthy |
| `EnhanceConfig.StripTrailingSlash` | lib/enhance-config.js:15 | a mount path ending in `/` loses exactly that one slash (adding it back restores the input), and any other mount path is unchanged |
| `EnhanceConfig.HmrOptions` | lib/enhance-config.js:15-16 | the options are `path=`, then the mount path without its trailing slash, then `/__webpack_hmr&timeout=20000&noInfo=true&reload=false` |
| `EnhanceConfig.HotClientEntry` | lib/enhance-config.js:18 | the client entry is the client module, a `?`, then exactly the options |
| `EnhanceConfig.MountPathExamples` | lib/enhance-config.js:15-16 | `'/'` gives `path=/__webpack_hmr…`, `'/app/'` gives `path=/app/__webpack_hmr…` and `'/app//'` keeps one slash; `'/app'` and `'/app/'` give the same options |
| `EnhanceConfig.TrailingSlashIgnored` | lib/enhance-config.js:15-18 | for a mount path without a trailing slash, adding one does not change the client entry |
| `EnhanceConfig.HotClientEntryInjective` | lib/enhance-config.js:15-18 | two mount paths give the same client entry if and only if they are equal once one trailing slash is dropped |
| `EnhanceConfig.Spread` | lib/enhance-config.js:19 | `concat` flattens an array argument into its elements and adds any other value (string, object, function) as one element |
| `EnhanceConfig.PrependHotModuleReplacement` | lib/enhance-config.js:14-20 | the result is an array whose first element is the client with `?path=<m>/__webpack_hmr&timeout=20000&noInfo=true&reload=false`; the original entries follow in their original order; a non-array contributes one element and an array is flattened one level, as `concat` does |
| `EnhanceConfig.StringAndSingletonAlike` | lib/enhance-config.js:17-19 | after the rewrite, a string entry and a one-element array holding it give the same result |
| `EnhanceConfig.PrependNotIdempotent` | lib/enhance-config.js:17-19 | rewriting twice puts two copies of the client in front of the original entries |
| `EnhanceConfig.PrependEach` | lib/enhance-config.js:42-45 | an entry array keeps its length, and each element is wrapped on its own |
| `EnhanceConfig.PrependEachName` | lib/enhance-config.js:42-45 | an entry object keeps its set of names, and each value `v` becomes `prepend(v)` |
| `EnhanceConfig.DevToolsEntry` | lib/enhance-config.js:40-46 | for an entry that is not `null`: a string entry becomes `[client, entry]`; an array or object has each value wrapped; an absent entry, a number, a boolean or a function is unchanged; the result is never `null` (a `null` entry throws, see `AddDevTools`) |
| `EnhanceConfig.DevToolsPlugins` | lib/enhance-config.js:31-38 | the plugins are the old ones (or none when `plugins` was falsy) followed by CSS-sourcemap and then HMR |
| `EnhanceConfig.DevToolsView` | lib/enhance-config.js:28-49 | for an input whose entry is not `null`, the copy keeps `context` and every other key; `devtool` is truthy afterwards, a truthy one is kept and a falsy one becomes `'cheap-module-eval-source-map'`; `plugins` is the old plugins (or `[]`) followed by CSS-sourcemap and then HMR; `entry` is rewritten as in `DevToolsEntry` |
| `EnhanceConfig.CallerViewAfterDevTools` | lib/enhance-config.js:29-46 | in the caller's object only the shared containers change: `context`, `devtool` and other keys are kept; a plugins array gains CSS-sourcemap and HMR and a falsy one stays falsy; an array or object entry has each value wrapped; any other entry, `null` included, is kept |
| `EnhanceConfig.WithDefaultContext` | lib/enhance-config.js:57-65 | only `context` may change; a truthy `context` is kept and a falsy one becomes the root directory; with a non-empty root the result's `context` is truthy |
| `EnhanceConfig.PrependEachElementInPlace` | lib/enhance-config.js:42-45 | the `forEach` loop over an entry array overwrites each element in place with its wrapped form |
| `EnhanceConfig.PrependEachNameInPlace` | lib/enhance-config.js:42-45 | the `forEach` loop over `Object.keys` of an entry object overwrites each named entry in place with its wrapped form, keeping the names |
| `EnhanceConfig.PrependEntryPoints` | lib/enhance-config.js:40-46 | throws exactly on a `null` entry; otherwise the copy's entry becomes `DevToolsEntry` of the old one, a string entry through a fresh array and an array or object in place; no other field changes |
| `EnhanceConfig.AddDevTools` | lib/enhance-config.js:28-49 | returns a fresh copy whose contents are `DevToolsView` of the input; the copy reuses the caller's plugins array and array/object entry, so the caller's object ends as `CallerViewAfterDevTools` (plugins appended and entries wrapped); a missing plugins array is replaced by a fresh one; a string entry is replaced by a fresh array only in the copy; a `null` entry throws a TypeError after the plugins were already pushed |
| `EnhanceConfig.AddBase` | lib/enhance-config.js:57-65 | fails with `ValidationFailed` exactly when the validator rejects the configuration; otherwise returns a fresh shallow copy whose contents are `WithDefaultContext` of the input, sharing its plugins and entry, and leaves the input untouched |
| `EnhanceConfig.EveryEntryPointBootstrapped` | lib/enhance-config.js:40-46 | after `addDevTools`, every entry point of the copy (string, array element or named entry) starts with the hot-reload client |
| `EnhanceConfig.DevToolsNotIdempotent` | lib/enhance-config.js:31-38 | applying `addDevTools` to its own result appends CSS-sourcemap and HMR again, so the result differs |
| `EnhanceConfig.CallerSeesSharedChanges` | lib/enhance-config.js:29-46 | the caller's object ends up with the copy's plugins when it had a plugins array, and with the copy's entry when its entry was an array or object; its `context`, `devtool`, other keys and a string entry keep their old values |
| `EnhanceConfig.WithDefaultContextIdempotent` | lib/enhance-config.js:58-64 | applying `addBase`'s transformation twice equals applying it once |
| `ResolveConfig.FirstDot` | lib/resolve-config.js:14 | the position returned is the first `.` of the name, or its length when there is no dot |
| `ResolveConfig.ParseConfigName` | lib/resolve-config.js:14-20 | a recognised name starts with `webpack.config.`, and its tag and extension hold no dot, the extension being non-empty |
| `ResolveConfig.ParseConfigFileName` | lib/resolve-config.js:14-20 | `webpack.config.<ext>` is recognised with tag `''`, and `webpack.config.<tag>.<ext>` with its tag and extension, for any dot-free tag and non-empty dot-free extension |
| `ResolveConfig.ParsedNameIsFileName` | lib/resolve-config.js:14-20 | every recognised name has exactly that form: its tag and extension rebuild the name |
| `ResolveConfig.ExtraSegmentIgnored` | lib/resolve-config.js:14 | `webpack.config.a.b.js` is not recognised |
| `ResolveConfig.AnyExtension` | lib/resolve-config.js:6-14 | `webpack.config.dev.ts` is recognised with tag `dev`, although the doc comment speaks of `.js` |
| `ResolveConfig.TypeTag` | lib/resolve-config.js:23 | the tag looked up is empty exactly when the type is absent or empty, and otherwise is the type itself |
| `ResolveConfig.LastTagged` | lib/resolve-config.js:16-23 | the position is that of a listed name with the tag, and no later name has that tag; there is no position exactly when no listed name has the tag |
| `ResolveConfig.Resolved` | lib/resolve-config.js:16-23 | there is a result exactly when some listed name carries the requested tag; it is `join(directory, name)` for such a name with no later name carrying the tag |
| `ResolveConfig.ResolveWebpackConfig` | lib/resolve-config.js:12-24 | the result is `join(directory, name)` for the last listed name whose tag is the requested type (`''` when the type is absent or empty), and none when no listed name carries that tag |
| `ResolveConfig.LaterNameWins` | lib/resolve-config.js:16-22 | a name with the requested tag listed after the others is the one found |
| `ResolveConfig.OtherNameIgnored` | lib/resolve-config.js:16-22 | appending a name without the requested tag, such as a non-matching name, does not change the result |
| `ResolveConfig.ListedFileFound` | lib/resolve-config.js:18-23 | if `webpack.config.<tag>.<ext>` (or `webpack.config.<ext>` for an absent or empty type) is listed, the lookup finds something |
| `ResolveConfig.TypeText` | lib/resolve-config.js:36 | the type as written in the message is the type itself, and `undefined` when it is absent, although its tag is then empty |
| `ResolveConfig.NotFoundMessage` | lib/resolve-config.js:36 | the not-found message starts with ``Couldn't find a config of type "``, carries the type right after it, then `" in "`, and ends with the directory followed by `".` |
| `ResolveConfig.LoadConfig` | lib/resolve-config.js:33-40 | when resolution yields nothing (or an empty path) the result is exactly ``Couldn't find a config of type "<type>" in "<directory>".``; otherwise it is the loader's result for the path, failure included |
| `BaseConfig.GetBaseConfig` | lib/base-config.js:15-22 | a caller-supplied config is the starting point and no lookup happens; otherwise the config is loaded from `join(root, 'project/webpack')` with the given type; a not-found or load error propagates unchanged; the result is always `addBase(start, root)`, so `context` equals the root when the start lacks it and is kept otherwise; the result is a fresh copy sharing the start's plugins and entry |

## Left out

- `lib/development.js` is not part of this model. It is event-driven plumbing:
  - the express app and its `mount` event;
  - the `initialized` and `online` promises;
  - building the compiler and registering the middleware;
  - `ip.address()` and console output.
- The development path is also not composed with `addDevTools`. That file calls
  `addDevPresets`, which `lib/enhance-config.js` does not export.
- `lib/production.js` is not part of this model. It only hands the assembled
  configuration to `webpack()`.
- `test/test.js` is not modelled: its assertions are commented out.
- The file search (`globule.find('webpack.config.*')`) is not modelled. The listing
  it returns is an argument, taken as the non-recursive names of the directory.
  Every name the regular expression accepts also passes the glob.
- `path.join` and `require` are not modelled. They are functions supplied by the
  caller, and `require` may fail.
- `require.resolve('webpack-hot-middleware/client')` is not modelled. It returns an
  absolute file path that depends on the installation; the model uses the constant
  `webpack-hot-middleware/client`.
- The webpack validator is not modelled. It is an abstract predicate on the
  configuration's contents. In the source a rejection ends inside the validator; the
  model returns `Err(ValidationFailed)` instead.
- Lookups of keys inherited from `Object.prototype` are not modelled. In the source,
  `configTypes` is a plain object, so a type such as `toString` or `constructor`
  finds an inherited value instead of `undefined`. The model's map has no prototype.
- `plugins` holding a truthy value that is not an array is not modelled. In the
  source, `push` would throw on it. The model's `plugins` is either an array or a
  falsy value, and every falsy value is treated alike, as the code does.
- The `options` argument of `getBaseConfig` is not modelled, because it is unused.
- Numbers are integers, so NaN is not modelled. An absent key and a key holding
  `undefined` are indistinguishable.
- Array holes are not modelled.
- The order in which `Object.keys` visits an entry object is not modelled. No step
  depends on it.
- Values nested inside entries and the other keys are plain values rather than
  shared references. Nothing in these files mutates them; `concat` copies.
- A caller-supplied configuration that is truthy but not an object is not modelled.
- Functions are opaque: a function-valued entry or key is a `Function` value known
  only by a name. Its code and properties are not modelled; nothing here calls it.
- A configuration module whose export is not an object (for example
  `module.exports = undefined`) is not modelled. The loader `require` always yields
  a configuration object. In the source, `_.clone` would pass such a value through
  and `addBase` would fail on it, in the validator or reading `context`.
