/**
 * The two configuration enhancers: `addBase`, which defaults `context`, and
 * `addDevTools`, which defaults `devtool`, appends the CSS source map and hot
 * module replacement plugins, and puts the hot-reload client in front of every
 * entry point.
 *
 * Each works on a shallow copy of its argument. The copy is a fresh `Config`;
 * the `plugins` array and an array or object `entry` are the caller's own
 * containers, so `addDevTools` changes them in the caller's object too.
 */
module EnhanceConfig {
  import opened Wrappers
  import opened ConfigModel

  const DefaultDevtool := "cheap-module-eval-source-map"

  /** The hot-reload client module, which the source resolves to its installed file path. */
  const HotClient := "webpack-hot-middleware/client"

  /** Everything of the client's query string after the mount path. */
  const HmrQueryTail := "/__webpack_hmr&timeout=20000&noInfo=true&reload=false"

  /** What V8 throws when `Object.keys` is given `null`. */
  const NullToObjectMessage := "Cannot convert undefined or null to object"

  predicate EndsWithSlash(s: string) {
    |s| > 0 && s[|s| - 1] == '/'
  }

  /** `appMountPath.replace(/[/]$/, '')`: drops one trailing slash, if there is one. */
  function StripTrailingSlash(mountPath: string): (r: string)
    ensures EndsWithSlash(mountPath) ==> r + "/" == mountPath
    ensures !EndsWithSlash(mountPath) ==> r == mountPath
  {
    if EndsWithSlash(mountPath) then mountPath[..|mountPath| - 1] else mountPath
  }

  /**
   * The query string the hot-reload client is given: `path=`, the mount path
   * without its trailing slash, then the fixed tail.
   */
  function HmrOptions(mountPath: string): (r: string)
    ensures |r| == 5 + |StripTrailingSlash(mountPath)| + |HmrQueryTail|
    ensures r[..5] == "path=" && r[|r| - |HmrQueryTail|..] == HmrQueryTail
    ensures r[5..|r| - |HmrQueryTail|] == StripTrailingSlash(mountPath)
  {
    "path=" + StripTrailingSlash(mountPath) + HmrQueryTail
  }

  /** The entry point prepended for hot reloading: the client, a `?`, then its options. */
  function HotClientEntry(mountPath: string): (r: string)
    ensures |r| == |HotClient| + 1 + |HmrOptions(mountPath)|
    ensures r[..|HotClient| + 1] == HotClient + "?"
    ensures r[|HotClient| + 1..] == HmrOptions(mountPath)
  {
    HotClient + "?" + HmrOptions(mountPath)
  }

  /** The elements `[x].concat(v)` puts after `x`: an array's elements, anything else as itself. */
  function Spread(v: Value): (r: seq<Value>)
    ensures v.List? ==> r == v.elems
    ensures !v.List? ==> r == [v]
  {
    if v.List? then v.elems else [v]
  }

  /** `_prependHotModuleReplacement`: the hot-reload client followed by the given entries. */
  function PrependHotModuleReplacement(entries: Value, mountPath: string): (r: Value)
    ensures r.List? && |r.elems| == |Spread(entries)| + 1
    ensures r.elems[0] == Str(HotClientEntry(mountPath))
    ensures r.elems[1..] == Spread(entries)
  {
    List([Str(HotClientEntry(mountPath))] + Spread(entries))
  }

  /** Every element of an entry array wrapped on its own. */
  function PrependEach(items: seq<Value>, mountPath: string): (r: seq<Value>)
    ensures |r| == |items|
    ensures forall i :: 0 <= i < |items| ==> r[i] == PrependHotModuleReplacement(items[i], mountPath)
  {
    seq(|items|, i requires 0 <= i < |items| => PrependHotModuleReplacement(items[i], mountPath))
  }

  /** Every entry point of a named-entry object wrapped, under the same names. */
  function PrependEachName(points: map<string, Value>, mountPath: string): (r: map<string, Value>)
    ensures r.Keys == points.Keys
    ensures forall k :: k in points ==> r[k] == PrependHotModuleReplacement(points[k], mountPath)
  {
    map k | k in points :: PrependHotModuleReplacement(points[k], mountPath)
  }

  /**
   * How `addDevTools` rewrites `entry`: a string becomes the client followed by
   * that string; an array or an object has each of its values wrapped; an
   * absent entry, a number, a boolean or a function stays as it is. A `null`
   * entry has no rewrite: `addDevTools` throws on it.
   */
  function DevToolsEntry(e: EntryView, mountPath: string): (r: EntryView)
    requires !e.NullEntryView?
    ensures !r.NullEntryView?
    ensures e.SingleView? ==> r == ManyView([Str(HotClientEntry(mountPath)), Str(e.path)])
    ensures e.ManyView? ==> r == ManyView(PrependEach(e.items, mountPath))
    ensures e.NamedView? ==> r == NamedView(PrependEachName(e.points, mountPath))
    ensures e.NoEntryView? || e.OtherView? ==> r == e
  {
    match e
    case SingleView(p) =>
      var wrapped := PrependHotModuleReplacement(Str(p), mountPath);
      assert wrapped.elems == [Str(HotClientEntry(mountPath)), Str(p)];
      ManyView(wrapped.elems)
    case ManyView(items) => ManyView(PrependEach(items, mountPath))
    case NamedView(points) => NamedView(PrependEachName(points, mountPath))
    case _ => e
  }

  /** The plugins `addDevTools` leaves in its copy: the old ones (or none), then the two it adds. */
  function DevToolsPlugins(plugins: Option<seq<Plugin>>): (r: seq<Plugin>)
    ensures plugins.Some? ==> r == plugins.value + [CssSourcemapPlugin, HotModuleReplacementPlugin]
    ensures plugins.None? ==> r == [CssSourcemapPlugin, HotModuleReplacementPlugin]
  {
    (if plugins.Some? then plugins.value else []) + [CssSourcemapPlugin, HotModuleReplacementPlugin]
  }

  /**
   * The configuration `addDevTools` returns, as a function of its argument's
   * contents, for an argument whose entry is not `null`.
   */
  function DevToolsView(v: ConfigView, mountPath: string): (r: ConfigView)
    requires !v.entry.NullEntryView?
    ensures r.context == v.context && r.rest == v.rest
    ensures Truthy(r.devtool)
    ensures Truthy(v.devtool) ==> r.devtool == v.devtool
    ensures !Truthy(v.devtool) ==> r.devtool == Str(DefaultDevtool)
    ensures r.plugins == Some(DevToolsPlugins(v.plugins))
    ensures r.entry == DevToolsEntry(v.entry, mountPath)
  {
    v.(devtool := if Truthy(v.devtool) then v.devtool else Str(DefaultDevtool),
       plugins := Some(DevToolsPlugins(v.plugins)),
       entry := DevToolsEntry(v.entry, mountPath))
  }

  /**
   * The caller's own object after `addDevTools`: only the containers it shares
   * with the copy have changed. This holds whether or not the call throws.
   */
  function CallerViewAfterDevTools(v: ConfigView, mountPath: string): (r: ConfigView)
    ensures r.context == v.context && r.devtool == v.devtool && r.rest == v.rest
    ensures r.plugins.Some? <==> v.plugins.Some?
    ensures v.plugins.Some? ==>
      r.plugins.value == v.plugins.value + [CssSourcemapPlugin, HotModuleReplacementPlugin]
    ensures v.entry.ManyView? ==> r.entry == ManyView(PrependEach(v.entry.items, mountPath))
    ensures v.entry.NamedView? ==> r.entry == NamedView(PrependEachName(v.entry.points, mountPath))
    ensures !v.entry.ManyView? && !v.entry.NamedView? ==> r.entry == v.entry
  {
    v.(plugins := if v.plugins.Some? then Some(DevToolsPlugins(v.plugins)) else None,
       entry := if v.entry.ManyView? || v.entry.NamedView? then DevToolsEntry(v.entry, mountPath) else v.entry)
  }

  /** The configuration `addBase` returns: `context` defaulted to the root directory. */
  function WithDefaultContext(v: ConfigView, rootDirectory: string): (r: ConfigView)
    ensures r.(context := v.context) == v
    ensures Truthy(v.context) ==> r.context == v.context
    ensures !Truthy(v.context) ==> r.context == Str(rootDirectory)
    ensures rootDirectory != "" ==> Truthy(r.context)
  {
    if Truthy(v.context) then v else v.(context := Str(rootDirectory))
  }

  /** The `forEach` over `Object.keys` of an entry array: each element is wrapped in place. */
  method PrependEachElementInPlace(list: EntryList, mountPath: string)
    modifies list
    ensures list.items == PrependEach(old(list.items), mountPath)
  {
    ghost var original := list.items;
    for i := 0 to |list.items|
      invariant |list.items| == |original|
      invariant forall j :: 0 <= j < i ==> list.items[j] == PrependHotModuleReplacement(original[j], mountPath)
      invariant forall j :: i <= j < |original| ==> list.items[j] == original[j]
    {
      list.items := list.items[i := PrependHotModuleReplacement(list.items[i], mountPath)];
    }
  }

  /** The `forEach` over `Object.keys` of an entry object: each named entry is wrapped in place. */
  method PrependEachNameInPlace(table: EntryMap, mountPath: string)
    modifies table
    ensures table.points == PrependEachName(old(table.points), mountPath)
  {
    ghost var original := table.points;
    var pending := table.points.Keys;
    while pending != {}
      invariant pending <= original.Keys
      invariant table.points.Keys == original.Keys
      invariant forall k :: k in original && k !in pending ==>
        table.points[k] == PrependHotModuleReplacement(original[k], mountPath)
      invariant forall k :: k in pending ==> table.points[k] == original[k]
      decreases pending
    {
      var name :| name in pending;
      table.points := table.points[name := PrependHotModuleReplacement(table.points[name], mountPath)];
      pending := pending - {name};
    }
  }

  /**
   * The `typeof entry` branch of `addDevTools`, on the copy: a string entry is
   * replaced by a fresh array, an array or object entry is rewritten in place,
   * and a `null` entry throws (`thrown`); nothing else changes.
   */
  method PrependEntryPoints(config: Config, mountPath: string) returns (thrown: bool)
    modifies config, config.entry.Objects()
    ensures thrown <==> old(config.entry).NullEntry?
    ensures !thrown ==> config.entry.View() == DevToolsEntry(old(config.entry.View()), mountPath)
    ensures !old(config.entry).Single? ==> config.entry == old(config.entry)
    ensures old(config.entry).Single? ==> config.entry.Many? && fresh(config.entry.list)
    ensures config.context == old(config.context) && config.devtool == old(config.devtool)
    ensures config.plugins == old(config.plugins) && config.rest == old(config.rest)
  {
    thrown := false;
    match config.entry {
      case Single(path) =>
        var list := new EntryList(PrependHotModuleReplacement(Str(path), mountPath).elems);
        config.entry := Many(list);
      case Many(list) =>
        PrependEachElementInPlace(list, mountPath);
      case Named(table) =>
        PrependEachNameInPlace(table, mountPath);
      case NullEntry =>
        thrown := true;
      case NoEntry =>
      case OtherEntry(_) =>
    }
  }

  /**
   * `addDevTools`: on a shallow copy, default `devtool`, append the two plugins
   * and prepend the hot-reload client to every entry point. A `null` entry makes
   * `Object.keys` throw, after the plugins have already been appended.
   */
  method AddDevTools(base: Config, mountPath: string) returns (r: Result<Config, Error>)
    modifies base.Shared()
    ensures base.View() == CallerViewAfterDevTools(old(base.View()), mountPath)
    ensures r.Err? <==> base.entry.NullEntry?
    ensures r.Err? ==> r.error == TypeError(NullToObjectMessage)
    ensures r.Ok? ==> fresh(r.value) && r.value.View() == DevToolsView(old(base.View()), mountPath)
    ensures r.Ok? && base.plugins != null ==> r.value.plugins == base.plugins
    ensures r.Ok? && base.plugins == null ==> fresh(r.value.plugins)
    ensures r.Ok? && (base.entry.Many? || base.entry.Named?) ==> r.value.entry == base.entry
    ensures r.Ok? && base.entry.Single? ==> r.value.entry.Many? && fresh(r.value.entry.list)
  {
    ghost var before := base.View();
    var config := new Config.Clone(base);
    if config.plugins == null {
      config.plugins := new PluginList([]);
    }
    config.devtool := if Truthy(config.devtool) then config.devtool else Str(DefaultDevtool);
    config.plugins.Push(CssSourcemapPlugin);
    config.plugins.Push(HotModuleReplacementPlugin);
    assert config.plugins.items == DevToolsPlugins(before.plugins);
    var thrown := PrependEntryPoints(config, mountPath);
    if thrown {
      return Err(TypeError(NullToObjectMessage));
    }
    return Ok(config);
  }

  /**
   * `addBase`: on a shallow copy, run the validator, then set `context` to the
   * root directory when it is falsy.
   */
  method AddBase(base: Config, rootDirectory: string, validate: ConfigView -> bool) returns (r: Result<Config, Error>)
    ensures r.Err? <==> !validate(base.View())
    ensures r.Err? ==> r.error == ValidationFailed
    ensures r.Ok? ==> fresh(r.value) && r.value.View() == WithDefaultContext(base.View(), rootDirectory)
    ensures r.Ok? ==> r.value.plugins == base.plugins && r.value.entry == base.entry
  {
    var config := new Config.Clone(base);
    if !validate(config.View()) {
      return Err(ValidationFailed);
    }
    if !Truthy(config.context) {
      config.context := Str(rootDirectory);
    }
    return Ok(config);
  }

  // Properties of the enhancers.

  /**
   * The mount path loses exactly one trailing slash: `'/'` gives `path=/__webpack_hmr…`,
   * `'/app/'` gives `path=/app/__webpack_hmr…`, and `'/app//'` keeps one slash.
   */
  lemma MountPathExamples()
    ensures HmrOptions("/") == "path=" + HmrQueryTail
    ensures HmrOptions("/app/") == "path=" + "/app" + HmrQueryTail
    ensures HmrOptions("/app//") == "path=" + "/app/" + HmrQueryTail
    ensures HmrOptions("/app") == HmrOptions("/app/")
  {
  }

  /** A mount path with and without its trailing slash gives the same client entry. */
  lemma TrailingSlashIgnored(mountPath: string)
    requires !EndsWithSlash(mountPath)
    ensures HotClientEntry(mountPath + "/") == HotClientEntry(mountPath)
  {
  }

  /** Two mount paths give the same client entry exactly when they agree once a trailing slash is dropped. */
  lemma HotClientEntryInjective(a: string, b: string)
    ensures HotClientEntry(a) == HotClientEntry(b) <==> StripTrailingSlash(a) == StripTrailingSlash(b)
  {
  }

  /** After the rewrite a string entry and the one-element array holding it are indistinguishable. */
  lemma StringAndSingletonAlike(path: string, mountPath: string)
    ensures PrependHotModuleReplacement(Str(path), mountPath)
         == PrependHotModuleReplacement(List([Str(path)]), mountPath)
  {
  }

  /** Each rewrite adds one more client entry: prepending is not idempotent. */
  lemma PrependNotIdempotent(entries: Value, mountPath: string)
    ensures var once := PrependHotModuleReplacement(entries, mountPath);
            var twice := PrependHotModuleReplacement(once, mountPath);
            twice.elems[..2] == [Str(HotClientEntry(mountPath)), Str(HotClientEntry(mountPath))]
            && twice.elems[2..] == Spread(entries)
  {
  }

  /** After `addDevTools` every entry point of the copy begins with the hot-reload client. */
  lemma EveryEntryPointBootstrapped(v: ConfigView, mountPath: string)
    requires !v.entry.NullEntryView?
    ensures var e := DevToolsView(v, mountPath).entry;
            var client := Str(HotClientEntry(mountPath));
            && (e.ManyView? && v.entry.SingleView? ==> e.items[0] == client)
            && (e.ManyView? && v.entry.ManyView? ==>
                  forall i :: 0 <= i < |e.items| ==> e.items[i].List? && e.items[i].elems[0] == client)
            && (e.NamedView? ==>
                  forall k :: k in e.points ==> e.points[k].List? && e.points[k].elems[0] == client)
  {
  }

  /** Calling `addDevTools` again on its own result appends two more plugins: it is not idempotent. */
  lemma DevToolsNotIdempotent(v: ConfigView, mountPath: string)
    requires !v.entry.NullEntryView?
    ensures var once := DevToolsView(v, mountPath);
            var twice := DevToolsView(once, mountPath);
            && twice.plugins.value == once.plugins.value + [CssSourcemapPlugin, HotModuleReplacementPlugin]
            && twice != once
  {
  }

  /**
   * What the shallow copy shares: the caller's object ends with the copy's
   * plugins when it had a plugins array, and with the copy's entry when its
   * entry was an array or object; its `devtool`, other keys and a string entry
   * keep their old values.
   */
  lemma CallerSeesSharedChanges(v: ConfigView, mountPath: string)
    requires !v.entry.NullEntryView?
    ensures var copy := DevToolsView(v, mountPath);
            var caller := CallerViewAfterDevTools(v, mountPath);
            && caller.context == v.context && caller.devtool == v.devtool && caller.rest == v.rest
            && (v.plugins.Some? ==> caller.plugins == copy.plugins)
            && (v.plugins.None? ==> caller.plugins.None?)
            && (v.entry.ManyView? || v.entry.NamedView? ==> caller.entry == copy.entry)
            && (v.entry.SingleView? ==> caller.entry == v.entry && copy.entry != v.entry)
  {
  }

  /** `addBase` applied twice is `addBase` applied once. */
  lemma WithDefaultContextIdempotent(v: ConfigView, rootDirectory: string)
    ensures WithDefaultContext(WithDefaultContext(v, rootDirectory), rootDirectory)
         == WithDefaultContext(v, rootDirectory)
  {
  }
}
