/**
 * The webpack configuration object as the pipeline sees it: an open JavaScript
 * object of which four keys are read or written by name (`context`, `devtool`,
 * `plugins`, `entry`) and all others are carried along.
 *
 * The object is a class because `_.clone` copies it shallowly: the clone is a
 * new object, but an array held in `plugins` and an array or object held in
 * `entry` are the very same containers as in the original. Those containers are
 * classes of their own, so that a push through the clone is seen by the caller.
 */
module ConfigModel {
  import opened Wrappers

  /**
   * A JavaScript value, as far as the pipeline inspects it. Numbers are
   * integers; a function is known only by a name.
   */
  datatype Value =
    | Undefined
    | Null
    | Bool(b: bool)
    | Num(n: int)
    | Str(s: string)
    | List(elems: seq<Value>)
    | Dict(fields: map<string, Value>)
    | Function(name: string)

  /** JavaScript truthiness: what `!x` and `x || y` test. Exactly five values are falsy. */
  predicate Truthy(v: Value)
    ensures Truthy(v) <==> v !in {Undefined, Null, Bool(false), Num(0), Str("")}
  {
    match v
    case Undefined => false
    case Null => false
    case Bool(b) => b
    case Num(n) => n != 0
    case Str(s) => s != ""
    case List(_) => true
    case Dict(_) => true
    case Function(_) => true
  }

  /** The keys the pipeline reads or writes by name. */
  const KnownKeys: set<string> := {"context", "devtool", "plugins", "entry"}

  /** Any other key of the configuration object. */
  type OtherKey = k: string | k !in KnownKeys witness "output"

  /** Plugin instances are opaque: only which constructor made them matters. */
  datatype Plugin =
    | CssSourcemapPlugin
    | HotModuleReplacementPlugin
    | UserPlugin(id: string)

  /** The array held in `plugins`. */
  class PluginList {
    var items: seq<Plugin>

    constructor (items: seq<Plugin>)
      ensures this.items == items
    {
      this.items := items;
    }

    /** `Array.prototype.push` of one element. */
    method Push(p: Plugin)
      modifies this
      ensures items == old(items) + [p]
    {
      items := items + [p];
    }
  }

  /** An array held in `entry`. */
  class EntryList {
    var items: seq<Value>

    constructor (items: seq<Value>)
      ensures this.items == items
    {
      this.items := items;
    }
  }

  /** A plain object held in `entry`: bundle name to entry point(s). */
  class EntryMap {
    var points: map<string, Value>

    constructor (points: map<string, Value>)
      ensures this.points == points
    {
      this.points := points;
    }
  }

  /** A value of `entry` that is neither a string nor an object: a number, a boolean or a function. */
  type ScalarValue = v: Value | v.Bool? || v.Num? || v.Function? witness Bool(false)

  /**
   * The `entry` key, told apart the way the source tells it apart with
   * `typeof`: absent (or `undefined`), `null`, a string, an array, a plain
   * object, or any other value, which is carried along untouched.
   */
  datatype Entry =
    | NoEntry
    | NullEntry
    | Single(path: string)
    | Many(list: EntryList)
    | Named(table: EntryMap)
    | OtherEntry(value: ScalarValue)
  {
    /** The container this entry shares with every shallow copy. */
    function Objects(): set<object> {
      match this
      case Many(l) => {l}
      case Named(t) => {t}
      case _ => {}
    }

    /** The entry's current contents. */
    function View(): EntryView
      reads Objects()
    {
      match this
      case NoEntry => NoEntryView
      case NullEntry => NullEntryView
      case Single(p) => SingleView(p)
      case Many(l) => ManyView(l.items)
      case Named(t) => NamedView(t.points)
      case OtherEntry(x) => OtherView(x)
    }
  }

  /** A snapshot of `entry`, containers replaced by their contents. */
  datatype EntryView =
    | NoEntryView
    | NullEntryView
    | SingleView(path: string)
    | ManyView(items: seq<Value>)
    | NamedView(points: map<string, Value>)
    | OtherView(value: ScalarValue)

  /** A snapshot of a whole configuration object; `plugins` is None when it is falsy. */
  datatype ConfigView = ConfigView(
    context: Value,
    devtool: Value,
    plugins: Option<seq<Plugin>>,
    entry: EntryView,
    rest: map<OtherKey, Value>)

  /** The failures the pipeline can end in. */
  datatype Error =
    | ConfigNotFound(message: string)   // loadConfig found no file of the requested type
    | ValidationFailed                  // the webpack validator rejected the configuration
    | TypeError(message: string)        // a JavaScript TypeError
    | LoadFailed(reason: string)        // the configuration module itself failed to load

  class Config {
    var context: Value
    var devtool: Value
    /** The `plugins` array, or null when `plugins` is absent or any other falsy value. */
    var plugins: PluginList?
    var entry: Entry
    var rest: map<OtherKey, Value>

    /** `_.clone(from)`: a new object with the same property values; containers are shared. */
    constructor Clone(from: Config)
      ensures context == from.context && devtool == from.devtool
      ensures plugins == from.plugins && entry == from.entry && rest == from.rest
    {
      context := from.context;
      devtool := from.devtool;
      plugins := from.plugins;
      entry := from.entry;
      rest := from.rest;
    }

    /** The containers this object holds by reference. */
    function Shared(): set<object>
      reads this
    {
      (if plugins == null then {} else {plugins}) + entry.Objects()
    }

    /** The object's current contents, containers included. */
    function View(): ConfigView
      reads this, Shared()
    {
      ConfigView(
        context,
        devtool,
        if plugins == null then None else Some(plugins.items),
        entry.View(),
        rest)
    }
  }
}
