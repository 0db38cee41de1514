/**
 * The plugin registry (utils/plugins_manager.py): plugin files are discovered in
 * a directory listing, loaded, registered by name in an insertion-ordered
 * dictionary, and the first plugin whose applicability test accepts the user's
 * text augments the message content.
 */
module Plugins {
  import opened Base
  import opened Strings
  import opened Content

  /**
   * A plugin's `augment_message_content`: the new content, or the message of the
   * exception it raised.
   */
  type Augmenter = seq<ContentElement> -> Result<seq<ContentElement>, string>

  /** A registered plugin: its name and its two functions. */
  datatype Plugin = Plugin(
    name: string,
    isApplicable: string -> bool,
    augment: Augmenter)

  /** The `is_plugin_applicable` and `augment_message_content` attributes a loaded module has, if any. */
  datatype Exports = Exports(
    isApplicable: Option<string -> bool>,
    augment: Option<Augmenter>)

  /** The names of a directory listing that end in ".py", in listing order. */
  function PluginFiles(listing: seq<string>): (r: seq<string>)
    ensures |r| <= |listing|
    ensures forall f :: f in r ==> f in listing && EndsWith(f, ".py")
  {
    if listing == [] then []
    else
      var init := PluginFiles(listing[..|listing| - 1]);
      var last := listing[|listing| - 1];
      if EndsWith(last, ".py") then init + [last] else init
  }

  /** A name is discovered exactly when it is listed and ends in ".py". */
  lemma {:induction false} PluginFilesMembers(listing: seq<string>, f: string)
    ensures f in PluginFiles(listing) <==> f in listing && EndsWith(f, ".py")
    decreases |listing|
  {
    if listing != [] {
      var init := listing[..|listing| - 1];
      PluginFilesMembers(init, f);
      assert listing == init + [listing[|listing| - 1]];
    }
  }

  /** Discovery keeps listing order: the files of a longer listing extend those of its prefix. */
  lemma {:induction false} PluginFilesAppend(a: seq<string>, b: seq<string>)
    ensures PluginFiles(a + b) == PluginFiles(a) + PluginFiles(b)
    decreases |b|
  {
    if b == [] {
      assert a + b == a;
    } else {
      var b' := b[..|b| - 1];
      assert (a + b)[..|a + b| - 1] == a + b';
      PluginFilesAppend(a, b');
    }
  }

  /** The plugin name of a file: its name without the last three characters. */
  function PluginName(filename: string): (r: string)
    ensures |filename| >= 3 ==> |r| == |filename| - 3 && r == filename[..|r|]
    ensures |filename| < 3 ==> r == ""
  {
    if |filename| >= 3 then filename[..|filename| - 3] else ""
  }

  /** Dropping ".py" recovers the module name. */
  lemma PluginNameOfPy(n: string)
    ensures PluginName(n + ".py") == n
  {
    assert (n + ".py")[..|n|] == n;
  }

  /** No two entries share a name: the registry is a dictionary keyed by plugin name. */
  predicate UniqueNames(plugins: seq<Plugin>)
  {
    forall i, j :: 0 <= i < j < |plugins| ==> plugins[i].name != plugins[j].name
  }

  predicate HasName(plugins: seq<Plugin>, name: string)
  {
    exists i :: 0 <= i < |plugins| && plugins[i].name == name
  }

  /**
   * `self.plugins[name] = ...`: a new name is added at the end; an existing name
   * keeps its position and gets the new functions.
   */
  function Registered(
    plugins: seq<Plugin>, name: string,
    isApplicable: string -> bool, augment: Augmenter): (r: seq<Plugin>)
    ensures Plugin(name, isApplicable, augment) in r && HasName(r, name)
    ensures !HasName(plugins, name) ==> r == plugins + [Plugin(name, isApplicable, augment)]
    ensures HasName(plugins, name) ==> |r| == |plugins|
    ensures forall i :: 0 <= i < |plugins| && plugins[i].name != name ==> r[i] == plugins[i]
    ensures forall i :: 0 <= i < |plugins| && plugins[i].name == name ==> r[i] == Plugin(name, isApplicable, augment)
    ensures UniqueNames(plugins) ==> UniqueNames(r)
  {
    var p := Plugin(name, isApplicable, augment);
    if HasName(plugins, name) then
      var r := seq(|plugins|, i requires 0 <= i < |plugins| => if plugins[i].name == name then p else plugins[i]);
      var k :| 0 <= k < |plugins| && plugins[k].name == name;
      assert r[k] == p;
      r
    else
      var r := plugins + [p];
      assert r[|plugins|] == p;
      r
  }

  /** A loaded module is registered only when it has both functions. */
  function RegisterExports(plugins: seq<Plugin>, name: string, ex: Exports): (r: seq<Plugin>)
    ensures ex.isApplicable.None? || ex.augment.None? ==> r == plugins
    ensures UniqueNames(plugins) ==> UniqueNames(r)
  {
    if ex.isApplicable.Some? && ex.augment.Some? then
      Registered(plugins, name, ex.isApplicable.value, ex.augment.value)
    else plugins
  }

  /**
   * The registry after loading the discovered `files` of `directory` in order, and
   * whether loading finished: a module that fails to load ends the loading,
   * with the plugins registered before it kept.
   */
  function Loaded(
    plugins: seq<Plugin>, directory: string, files: seq<string>,
    loader: string -> Result<Exports, string>): (r: (Result<(), string>, seq<Plugin>))
    decreases |files|
  {
    if files == [] then (Ok(()), plugins)
    else
      match loader(PathJoin(directory, files[0]))
      case Err(e) => (Err(e), plugins)
      case Ok(ex) => Loaded(RegisterExports(plugins, PluginName(files[0]), ex), directory, files[1..], loader)
  }

  /** Loading keeps the registry keyed by name. */
  lemma {:induction false} LoadedKeepsNamesUnique(
    plugins: seq<Plugin>, directory: string, files: seq<string>, loader: string -> Result<Exports, string>)
    requires UniqueNames(plugins)
    ensures UniqueNames(Loaded(plugins, directory, files, loader).1)
    decreases |files|
  {
    if files != [] {
      match loader(PathJoin(directory, files[0]))
      case Err(_) =>
      case Ok(ex) =>
        LoadedKeepsNamesUnique(RegisterExports(plugins, PluginName(files[0]), ex), directory, files[1..], loader);
    }
  }

  /** Loading never forgets a name: every plugin registered before is still registered. */
  lemma {:induction false} LoadedKeepsNames(
    plugins: seq<Plugin>, directory: string, files: seq<string>, loader: string -> Result<Exports, string>,
    name: string)
    requires HasName(plugins, name)
    ensures HasName(Loaded(plugins, directory, files, loader).1, name)
    decreases |files|
  {
    if files != [] {
      match loader(PathJoin(directory, files[0]))
      case Err(_) =>
      case Ok(ex) =>
        var next := RegisterExports(plugins, PluginName(files[0]), ex);
        var k :| 0 <= k < |plugins| && plugins[k].name == name;
        assert next[k].name == name;
        LoadedKeepsNames(next, directory, files[1..], loader, name);
    }
  }

  /**
   * When every module loads and exports both functions, loading completes and
   * each file's plugin name is registered.
   */
  lemma {:induction false} LoadedRegistersAll(
    plugins: seq<Plugin>, directory: string, files: seq<string>, loader: string -> Result<Exports, string>)
    requires forall f :: f in files ==>
               loader(PathJoin(directory, f)).Ok?
               && loader(PathJoin(directory, f)).value.isApplicable.Some?
               && loader(PathJoin(directory, f)).value.augment.Some?
    ensures Loaded(plugins, directory, files, loader).0.Ok?
    ensures forall f :: f in files ==> HasName(Loaded(plugins, directory, files, loader).1, PluginName(f))
    decreases |files|
  {
    if files != [] {
      var ex := loader(PathJoin(directory, files[0])).value;
      var next := RegisterExports(plugins, PluginName(files[0]), ex);
      assert forall f :: f in files[1..] ==> f in files;
      LoadedRegistersAll(next, directory, files[1..], loader);
      forall f | f in files
        ensures HasName(Loaded(plugins, directory, files, loader).1, PluginName(f))
      {
        if f == files[0] {
          LoadedKeepsNames(next, directory, files[1..], loader, PluginName(f));
        } else {
          assert f in files[1..];
        }
      }
    }
  }

  /**
   * The position of the first plugin, in registration order, whose applicability
   * test accepts `userInput`.
   */
  function FirstApplicableIndex(plugins: seq<Plugin>, userInput: string): (r: Option<nat>)
    ensures r.Some? ==> r.value < |plugins| && plugins[r.value].isApplicable(userInput)
    ensures r.Some? ==> forall j :: 0 <= j < r.value ==> !plugins[j].isApplicable(userInput)
    ensures r.None? <==> forall j :: 0 <= j < |plugins| ==> !plugins[j].isApplicable(userInput)
    decreases |plugins|
  {
    if plugins == [] then None
    else if plugins[0].isApplicable(userInput) then Some(0)
    else
      match FirstApplicableIndex(plugins[1..], userInput)
      case None =>
        assert forall j :: 1 <= j < |plugins| ==> plugins[j] == plugins[1..][j - 1];
        None
      case Some(i) =>
        assert forall j :: 1 <= j < i + 1 ==> plugins[j] == plugins[1..][j - 1];
        Some(i + 1)
  }

  /**
   * `process_input`: the text of the first element picks the plugin; without
   * one the content is returned as it is. What the plugin raises is not caught.
   */
  function ProcessedInput(plugins: seq<Plugin>, content: seq<ContentElement>): (r: Result<seq<ContentElement>, string>)
    requires content != [] && content[0].Text?
  {
    match FirstApplicableIndex(plugins, content[0].text)
    case None => Ok(content)
    case Some(i) => plugins[i].augment(content)
  }

  /** Without an applicable plugin, content goes through untouched; otherwise only the first applicable plugin acts. */
  lemma ProcessedInputDispatch(plugins: seq<Plugin>, content: seq<ContentElement>)
    requires content != [] && content[0].Text?
    ensures (forall p :: p in plugins ==> !p.isApplicable(content[0].text)) ==> ProcessedInput(plugins, content) == Ok(content)
    ensures forall i :: 0 <= i < |plugins| && plugins[i].isApplicable(content[0].text)
               && (forall j :: 0 <= j < i ==> !plugins[j].isApplicable(content[0].text))
               ==> ProcessedInput(plugins, content) == plugins[i].augment(content)
  {
    var u := content[0].text;
    if forall p :: p in plugins ==> !p.isApplicable(u) {
      assert forall j :: 0 <= j < |plugins| ==> plugins[j] in plugins;
    }
    forall i | 0 <= i < |plugins| && plugins[i].isApplicable(u) && (forall j :: 0 <= j < i ==> !plugins[j].isApplicable(u))
      ensures ProcessedInput(plugins, content) == plugins[i].augment(content)
    {
      var k := FirstApplicableIndex(plugins, u);
      if k.value < i {
      } else if k.value > i {
      }
    }
  }

  /** The plugin registry of the chat client. */
  class PluginManager {
    var plugins: seq<Plugin>

    /** An empty registry; `load_plugins` fills it. */
    constructor ()
      ensures plugins == []
    {
      plugins := [];
    }

    /** `discover_plugin_files`: the loop over the directory listing. */
    static method DiscoverPluginFiles(listing: seq<string>) returns (files: seq<string>)
      ensures files == PluginFiles(listing)
    {
      files := [];
      var i := 0;
      while i < |listing|
        invariant 0 <= i <= |listing|
        invariant files == PluginFiles(listing[..i])
      {
        assert listing[..i + 1][..i] == listing[..i];
        if EndsWith(listing[i], ".py") {
          files := files + [listing[i]];
        }
        i := i + 1;
      }
      assert listing[..|listing|] == listing;
    }

    method RegisterPlugin(
      name: string, isApplicable: string -> bool, augment: Augmenter)
      modifies this
      ensures plugins == Registered(old(plugins), name, isApplicable, augment)
    {
      plugins := Registered(plugins, name, isApplicable, augment);
    }

    /**
     * `load_plugins`: the directory listing and the module loader are parameters.
     * A loader error is an exception that `load_plugins` does not catch.
     */
    method LoadPlugins(directory: string, listing: seq<string>, loader: string -> Result<Exports, string>)
      returns (r: Result<(), string>)
      modifies this
      ensures (r, plugins) == Loaded(old(plugins), directory, PluginFiles(listing), loader)
    {
      var files := DiscoverPluginFiles(listing);
      var i := 0;
      while i < |files|
        invariant 0 <= i <= |files|
        invariant Loaded(old(plugins), directory, files, loader) == Loaded(plugins, directory, files[i..], loader)
      {
        var loaded := loader(PathJoin(directory, files[i]));
        if loaded.Err? {
          return Err(loaded.error);
        }
        var ex := loaded.value;
        assert files[i..][1..] == files[i + 1..];
        if ex.isApplicable.Some? && ex.augment.Some? {
          RegisterPlugin(PluginName(files[i]), ex.isApplicable.value, ex.augment.value);
        }
        i := i + 1;
      }
      return Ok(());
    }

    /** `find_applicable_plugin`: the first plugin, in registration order, that accepts the input. */
    method FindApplicablePlugin(userInput: string) returns (r: Option<Plugin>)
      ensures FirstApplicableIndex(plugins, userInput).None? ==> r.None?
      ensures FirstApplicableIndex(plugins, userInput).Some? ==>
                r == Some(plugins[FirstApplicableIndex(plugins, userInput).value])
    {
      var i := 0;
      while i < |plugins|
        invariant 0 <= i <= |plugins|
        invariant forall j :: 0 <= j < i ==> !plugins[j].isApplicable(userInput)
      {
        if plugins[i].isApplicable(userInput) {
          var k := FirstApplicableIndex(plugins, userInput);
          assert k.Some? && k.value == i by {
            if k.None? {
              assert false;
            } else if k.value < i {
              assert false;
            } else if k.value > i {
              assert false;
            }
          }
          return Some(plugins[i]);
        }
        i := i + 1;
      }
      return None;
    }

    /** `process_input`: it reads the text of the first element, so the content must start with one. */
    method ProcessInput(content: seq<ContentElement>) returns (r: Result<seq<ContentElement>, string>)
      requires content != [] && content[0].Text?
      ensures r == ProcessedInput(plugins, content)
    {
      var p := FindApplicablePlugin(content[0].text);
      if p.Some? {
        r := p.value.augment(content);
      } else {
        r := Ok(content);
      }
    }
  }
}
