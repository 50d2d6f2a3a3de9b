/**
 * Assembling the base configuration for the production and development
 * builds: start from the configuration the caller passes or, when it passes
 * none, load the one in `<root>/project/webpack` for the requested type; then
 * always apply `addBase`.
 */
module BaseConfig {
  import opened Wrappers
  import opened ConfigModel
  import opened ResolveConfig
  import opened EnhanceConfig

  /** Where a project keeps its webpack configurations, relative to its root. */
  const WebpackDirectory := "project/webpack"

  /**
   * `getBaseConfig`. `explicit` is the caller's configuration, null when it is
   * falsy; `listing` holds the names the file search finds in the configuration
   * directory; `join`, `require` and `validate` stand for `path.join`, the
   * module loader and the webpack validator.
   */
  method GetBaseConfig(rootDirectory: string, configType: Option<string>, explicit: Config?,
                       listing: seq<string>, join: (string, string) -> string,
                       require: string -> Result<Config, Error>,
                       validate: ConfigView -> bool) returns (r: Result<Config, Error>)
    ensures explicit != null ==>
      && (r.Ok? <==> validate(explicit.View()))
      && (r.Err? ==> r.error == ValidationFailed)
      && (r.Ok? ==> fresh(r.value) && r.value.View() == WithDefaultContext(explicit.View(), rootDirectory))
      && (r.Ok? ==> r.value.plugins == explicit.plugins && r.value.entry == explicit.entry)
    ensures explicit == null ==>
      var directory := join(rootDirectory, WebpackDirectory);
      var path := Resolved(listing, directory, configType, join);
      && (!Found(path) ==> r == Err(ConfigNotFound(NotFoundMessage(configType, directory))))
      && (Found(path) && require(path.value).Err? ==> r == require(path.value))
      && (Found(path) && require(path.value).Ok? ==>
            var loaded := require(path.value).value;
            && (r.Ok? <==> validate(loaded.View()))
            && (r.Err? ==> r.error == ValidationFailed)
            && (r.Ok? ==> fresh(r.value) && r.value.View() == WithDefaultContext(loaded.View(), rootDirectory))
            && (r.Ok? ==> r.value.plugins == loaded.plugins && r.value.entry == loaded.entry))
  {
    var webpackConfig := explicit;
    if webpackConfig == null {
      var directory := join(rootDirectory, WebpackDirectory);
      var loaded := LoadConfig(listing, directory, configType, join, require);
      if loaded.Err? {
        return loaded;
      }
      webpackConfig := loaded.value;
    }
    r := AddBase(webpackConfig, rootDirectory, validate);
  }
}
