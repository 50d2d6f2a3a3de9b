/**
 * Locating and loading the project's webpack configuration file.
 *
 * `resolveWebpackConfig` takes the names the file search finds in a directory,
 * keeps those matching `^webpack\.config\.(?:([^.]+)\.|)[^.]+$`, maps each
 * matching name's tag (the empty string when there is none) to its joined
 * path, and looks up the requested tag. `loadConfig` turns a miss into an error
 * with a fixed message and otherwise hands the path to the module loader.
 *
 * The file search, `path.join` and `require` are outside the model: the
 * directory listing is an argument, and `join` and `require` are functions the
 * caller supplies.
 */
module ResolveConfig {
  import opened Wrappers
  import opened ConfigModel

  const ConfigPrefix := "webpack.config."

  /** The position of the first dot, or the length when there is none. */
  function FirstDot(s: string): (i: nat)
    ensures i <= |s|
    ensures '.' !in s[..i]
    ensures i < |s| ==> s[i] == '.'
  {
    if s == [] || s[0] == '.' then 0
    else
      var i := 1 + FirstDot(s[1..]);
      assert s[..i] == [s[0]] + s[1..][..i - 1];
      i
  }

  /** In a name without dots the first dot is past the end. */
  lemma FirstDotOfDotFree(s: string)
    requires '.' !in s
    ensures FirstDot(s) == |s|
  {
  }

  /** The first dot after a dot-free prefix is the one that ends it. */
  lemma {:induction false} FirstDotAfter(prefix: string, suffix: string)
    requires '.' !in prefix
    ensures FirstDot(prefix + "." + suffix) == |prefix|
  {
    if prefix != [] {
      assert (prefix + "." + suffix)[1..] == prefix[1..] + "." + suffix;
      FirstDotAfter(prefix[1..], suffix);
    }
  }

  /**
   * The regular expression of the source applied to a name: the tag
   * (`result[1] || ''`) and the extension when it matches: neither part holds
   * a dot, and the name starts with the fixed prefix.
   */
  function ParseConfigName(name: string): (r: Option<(string, string)>)
    ensures r.Some? ==> ValidParts(r.value.0, r.value.1)
    ensures r.Some? ==> |name| > |ConfigPrefix| && name[..|ConfigPrefix|] == ConfigPrefix
  {
    if |name| < |ConfigPrefix| || name[..|ConfigPrefix|] != ConfigPrefix then None
    else
      var rest := name[|ConfigPrefix|..];
      var i := FirstDot(rest);
      if i == |rest| then
        if rest != "" then Some(("", rest)) else None
      else if 0 < i && '.' !in rest[i + 1..] && rest[i + 1..] != "" then
        Some((rest[..i], rest[i + 1..]))
      else None
  }

  /** The tag of a matching name. */
  function ConfigTag(name: string): Option<string> {
    match ParseConfigName(name)
    case None => None
    case Some((tag, _)) => Some(tag)
  }

  /** A tag and an extension the pattern accepts: neither holds a dot, the extension is not empty. */
  predicate ValidParts(tag: string, ext: string) {
    '.' !in tag && '.' !in ext && ext != ""
  }

  /** The file name with a given tag and extension: `webpack.config.js`, `webpack.config.dev.js`. */
  function ConfigFileName(tag: string, ext: string): string {
    ConfigPrefix + (if tag == "" then ext else tag + "." + ext)
  }

  /** Every well-formed file name is recognised, with its own tag and extension. */
  lemma {:induction false} ParseConfigFileName(tag: string, ext: string)
    requires ValidParts(tag, ext)
    ensures ParseConfigName(ConfigFileName(tag, ext)) == Some((tag, ext))
  {
    var name := ConfigFileName(tag, ext);
    assert name[..|ConfigPrefix|] == ConfigPrefix;
    var rest := name[|ConfigPrefix|..];
    var i := FirstDot(rest);
    if tag == "" {
      assert rest == ext;
      FirstDotOfDotFree(ext);
    } else {
      assert rest == tag + "." + ext;
      FirstDotAfter(tag, ext);
      assert rest[..i] == tag;
      assert rest[i + 1..] == ext;
    }
  }

  /** Every recognised name is a well-formed file name: the pattern accepts nothing else. */
  lemma ParsedNameIsFileName(name: string)
    requires ParseConfigName(name).Some?
    ensures var (tag, ext) := ParseConfigName(name).value;
            ConfigFileName(tag, ext) == name
  {
  }

  /** Names with extra dotted segments are ignored, whatever the extension. */
  lemma ExtraSegmentIgnored()
    ensures ParseConfigName("webpack.config.a.b.js").None?
  {
    var name := "webpack.config.a.b.js";
    assert name[..|ConfigPrefix|] == ConfigPrefix;
    assert name[|ConfigPrefix|..] == "a.b.js";
    assert FirstDot("a.b.js") == 1;
  }

  /** The extension is not restricted to `js`. */
  lemma AnyExtension()
    ensures ParseConfigName("webpack.config.dev.ts") == Some(("dev", "ts"))
  {
    ParseConfigFileName("dev", "ts");
    assert ConfigFileName("dev", "ts") == "webpack.config.dev.ts";
  }

  /** `type || ''`: the tag looked up for an optional type; absent and empty both ask for no tag. */
  function TypeTag(configType: Option<string>): (r: string)
    ensures r == "" <==> configType.None? || configType.value == ""
    ensures r != "" ==> configType == Some(r)
  {
    match configType
    case None => ""
    case Some(t) => t
  }

  /**
   * `${type}`: how the type is written into the error message. It is the tag
   * itself, except that an absent type reads `undefined` where its tag is empty.
   */
  function TypeText(configType: Option<string>): (r: string)
    ensures configType.Some? ==> r == TypeTag(configType)
    ensures configType.None? ==> r == "undefined" && TypeTag(configType) == ""
  {
    match configType
    case None => "undefined"
    case Some(t) => t
  }

  /** The position of the last listed name carrying the tag. */
  function LastTagged(listing: seq<string>, tag: string): (r: Option<nat>)
    ensures r.Some? ==> r.value < |listing| && ConfigTag(listing[r.value]) == Some(tag)
    ensures r.Some? ==> forall k :: r.value < k < |listing| ==> ConfigTag(listing[k]) != Some(tag)
    ensures r.None? <==> forall k :: 0 <= k < |listing| ==> ConfigTag(listing[k]) != Some(tag)
  {
    if listing == [] then None
    else if ConfigTag(listing[|listing| - 1]) == Some(tag) then Some(|listing| - 1)
    else LastTagged(listing[..|listing| - 1], tag)
  }

  /** What `resolveWebpackConfig` returns: the joined path of the last listed name with the requested tag. */
  function Resolved(listing: seq<string>, directory: string, configType: Option<string>,
                    join: (string, string) -> string): (r: Option<string>)
    ensures r.Some? <==> exists k :: 0 <= k < |listing| && ConfigTag(listing[k]) == Some(TypeTag(configType))
    ensures r.Some? ==> exists k :: 0 <= k < |listing| && ConfigTag(listing[k]) == Some(TypeTag(configType))
                                   && r.value == join(directory, listing[k])
                                   && forall j :: k < j < |listing| ==> ConfigTag(listing[j]) != Some(TypeTag(configType))
  {
    match LastTagged(listing, TypeTag(configType))
    case None => None
    case Some(i) => Some(join(directory, listing[i]))
  }

  /** A path `loadConfig` accepts: present and, as JavaScript tests it, not empty. */
  predicate Found(path: Option<string>) {
    path.Some? && path.value != ""
  }

  /** `resolveWebpackConfig`: fill the tag map from the listing, later names overwriting earlier ones, then look up. */
  method ResolveWebpackConfig(listing: seq<string>, directory: string, configType: Option<string>,
                              join: (string, string) -> string) returns (r: Option<string>)
    ensures r == Resolved(listing, directory, configType, join)
  {
    var configTypes: map<string, string> := map[];
    for i := 0 to |listing|
      invariant forall t :: t in configTypes <==> LastTagged(listing[..i], t).Some?
      invariant forall t :: t in configTypes ==>
        configTypes[t] == join(directory, listing[LastTagged(listing[..i], t).value])
    {
      assert listing[..i + 1][..i] == listing[..i];
      match ConfigTag(listing[i]) {
        case Some(tag) =>
          configTypes := configTypes[tag := join(directory, listing[i])];
        case None =>
      }
    }
    assert listing[..|listing|] == listing;
    var key := TypeTag(configType);
    r := if key in configTypes then Some(configTypes[key]) else None;
  }

  /** A later name with the requested tag overrides every earlier one. */
  lemma LaterNameWins(listing: seq<string>, name: string, directory: string, configType: Option<string>,
                      join: (string, string) -> string)
    requires ConfigTag(name) == Some(TypeTag(configType))
    ensures Resolved(listing + [name], directory, configType, join) == Some(join(directory, name))
  {
  }

  /** A name without the requested tag changes nothing. */
  lemma OtherNameIgnored(listing: seq<string>, name: string, directory: string, configType: Option<string>,
                         join: (string, string) -> string)
    requires ConfigTag(name) != Some(TypeTag(configType))
    ensures Resolved(listing + [name], directory, configType, join) == Resolved(listing, directory, configType, join)
  {
  }

  /** A listed file with the requested tag is always found; an absent or empty type asks for `webpack.config.<ext>`. */
  lemma ListedFileFound(listing: seq<string>, k: nat, directory: string, configType: Option<string>,
                        ext: string, join: (string, string) -> string)
    requires k < |listing| && ValidParts(TypeTag(configType), ext)
    requires listing[k] == ConfigFileName(TypeTag(configType), ext)
    ensures Resolved(listing, directory, configType, join).Some?
  {
    ParseConfigFileName(TypeTag(configType), ext);
  }

  const NotFoundLead := "Couldn't find a config of type \""

  /**
   * The message `loadConfig` throws when there is no file of the requested
   * type. It carries the type and the directory literally, each between double
   * quotes.
   */
  function NotFoundMessage(configType: Option<string>, directory: string): (msg: string)
    ensures var t := TypeText(configType);
            && |msg| == |NotFoundLead| + |t| + 8 + |directory|
            && msg[..|NotFoundLead|] == NotFoundLead
            && msg[|NotFoundLead|..|NotFoundLead| + |t|] == t
            && msg[|NotFoundLead| + |t|..|NotFoundLead| + |t| + 6] == "\" in \""
            && msg[|msg| - |directory| - 2..|msg| - 2] == directory
            && msg[|msg| - 2..] == "\"."
  {
    NotFoundLead + TypeText(configType) + "\" in \"" + directory + "\"."
  }

  /**
   * `loadConfig`: resolve, throw the not-found error on a miss, otherwise
   * return what the loader yields for the path, failure included.
   */
  method LoadConfig(listing: seq<string>, directory: string, configType: Option<string>,
                    join: (string, string) -> string,
                    require: string -> Result<Config, Error>) returns (r: Result<Config, Error>)
    ensures var path := Resolved(listing, directory, configType, join);
            && (!Found(path) ==> r == Err(ConfigNotFound(NotFoundMessage(configType, directory))))
            && (Found(path) ==> r == require(path.value))
  {
    var config := ResolveWebpackConfig(listing, directory, configType, join);
    if !Found(config) {
      return Err(ConfigNotFound(NotFoundMessage(configType, directory)));
    }
    r := require(config.value);
  }
}
