/**
  The plugin registry: a map from plugin ID to plugin that `LoadPlugins`
  empties and refills from the `.so` files of the plugin directory, the
  lookups on it, the response envelope of `CallPlugin`, and the list of
  function definitions handed to the chat model.

  Opening a shared object, looking up its `Plugin` symbol, the type
  assertion and `Init` are one step here: every file carries the outcome
  of loading it, a plugin or an error text.  A plugin's `Execute` is a
  function from its JSON input to its output or an error text.
*/
module Plugins {
  import opened GoStrings
  import opened Wrappers

  /** The part of an OpenAI function definition the registry passes on. */
  datatype FunctionDefinition = FunctionDefinition(name: string, description: string)

  datatype Plugin = Plugin(id: string, definition: FunctionDefinition, execute: string -> Result<string, string>)

  /** A directory entry and what loading it as a plugin gives. */
  datatype PluginFile = PluginFile(name: string, load: Result<Plugin, string>)

  /** The envelope `CallPlugin` marshals; an empty field is omitted from the JSON. */
  datatype PluginResponse = PluginResponse(error: string, result: string)

  /** The JSON text of an envelope, with empty fields omitted; string escaping is not modelled. */
  function Marshal(r: PluginResponse): string
  {
    var fields := (if r.error != [] then ["\"error\":\"" + r.error + "\""] else [])
      + (if r.result != [] then ["\"result\":\"" + r.result + "\""] else []);
    "{" + Join(fields, ",") + "}"
  }

  // ---------------------------------------------------------------------
  // File extensions

  /** Position of the last `.` in the final path element, scanning back from `i`. */
  function LastDot(name: string, i: nat): (r: Option<nat>)
    requires i <= |name|
    ensures r.Some? ==> r.value < i && name[r.value] == '.'
    ensures r.Some? ==> forall j :: r.value < j < i ==> name[j] != '.' && name[j] != '/'
    ensures r.None? ==> forall j :: 0 <= j < i && name[j] == '.' ==> exists k :: j < k < i && name[k] == '/'
  {
    if i == 0 then None
    else if name[i - 1] == '/' then None
    else if name[i - 1] == '.' then Some(i - 1)
    else LastDot(name, i - 1)
  }

  /** `filepath.Ext`: the suffix from the last `.` of the final element, or empty. */
  function Ext(name: string): (r: string)
    ensures r == [] || (r[0] == '.' && HasSuffix(name, r))
  {
    match LastDot(name, |name|)
    case None => []
    case Some(i) => assert name[i..] == name[|name| - |name[i..]|..]; name[i..]
  }

  /** A file is loaded exactly when its name ends in `.so`. */
  lemma ExtSharedObject(name: string)
    ensures Ext(name) == ".so" <==> HasSuffix(name, ".so")
  {
    if HasSuffix(name, ".so") {
      var n := |name|;
      assert name[n - 3..] == ".so";
      assert name[n - 3] == '.' && name[n - 2] == 's' && name[n - 1] == 'o';
      assert LastDot(name, n) == LastDot(name, n - 2) == Some(n - 3);
    }
  }

  // ---------------------------------------------------------------------
  // Loading as a function of the directory

  datatype LoadOutcome = LoadOutcome(loaded: map<string, Plugin>, err: Option<string>)

  /** Registers the plugins of the `.so` files in order, stopping at the first that fails to load. */
  function Loading(loaded: map<string, Plugin>, files: seq<PluginFile>): LoadOutcome
    decreases |files|
  {
    if files == [] then LoadOutcome(loaded, None)
    else if Ext(files[0].name) != ".so" then Loading(loaded, files[1..])
    else
      match files[0].load
      case Failure(e) => LoadOutcome(loaded, Some(e))
      case Success(p) => Loading(loaded[p.id := p], files[1..])
  }

  /** Every plugin is registered under its own ID. */
  predicate KeyedById(loaded: map<string, Plugin>)
  {
    forall id :: id in loaded ==> loaded[id].id == id
  }

  function SharedObjects(files: seq<PluginFile>): (r: seq<PluginFile>)
    ensures forall k :: 0 <= k < |r| ==> Ext(r[k].name) == ".so"
  {
    if files == [] then []
    else if Ext(files[0].name) == ".so" then [files[0]] + SharedObjects(files[1..])
    else SharedObjects(files[1..])
  }

  /** Files without the `.so` extension play no part in loading. */
  lemma {:induction false} LoadingIgnoresOthers(loaded: map<string, Plugin>, files: seq<PluginFile>)
    ensures Loading(loaded, files) == Loading(loaded, SharedObjects(files))
    decreases |files|
  {
    if files != [] {
      var f := files[0];
      if Ext(f.name) != ".so" {
        LoadingIgnoresOthers(loaded, files[1..]);
      } else {
        var rest := SharedObjects(files[1..]);
        assert ([f] + rest)[0] == f && ([f] + rest)[1..] == rest;
        match f.load
        case Failure(e) =>
        case Success(p) =>
          LoadingIgnoresOthers(loaded[p.id := p], files[1..]);
      }
    }
  }

  /** Loading keeps every plugin under its own ID. */
  lemma {:induction false} LoadingKeyedById(loaded: map<string, Plugin>, files: seq<PluginFile>)
    requires KeyedById(loaded)
    ensures KeyedById(Loading(loaded, files).loaded)
    decreases |files|
  {
    if files != [] && Ext(files[0].name) != ".so" {
      LoadingKeyedById(loaded, files[1..]);
    } else if files != [] && files[0].load.Success? {
      var p := files[0].load.value;
      LoadingKeyedById(loaded[p.id := p], files[1..]);
    }
  }

  /** A `.so` file that does not load. */
  predicate LoadFails(f: PluginFile)
  {
    Ext(f.name) == ".so" && f.load.Failure?
  }

  /** The registry after loading `f`, when `f` does not fail. */
  function LoadedAfter(loaded: map<string, Plugin>, f: PluginFile): map<string, Plugin>
  {
    if Ext(f.name) == ".so" && f.load.Success? then loaded[f.load.value.id := f.load.value] else loaded
  }

  lemma LoadingStep(loaded: map<string, Plugin>, files: seq<PluginFile>)
    requires files != []
    ensures LoadFails(files[0]) ==> Loading(loaded, files) == LoadOutcome(loaded, Some(files[0].load.error))
    ensures !LoadFails(files[0]) ==> Loading(loaded, files) == Loading(LoadedAfter(loaded, files[0]), files[1..])
  {
  }

  /** Loading fails exactly when some `.so` file fails to load. */
  lemma {:induction false} LoadingFails(loaded: map<string, Plugin>, files: seq<PluginFile>)
    ensures Loading(loaded, files).err.Some? <==> exists k :: 0 <= k < |files| && LoadFails(files[k])
    decreases |files|
  {
    if files != [] {
      LoadingStep(loaded, files);
      LoadingFails(LoadedAfter(loaded, files[0]), files[1..]);
      assert forall k :: 1 <= k < |files| ==> files[k] == files[1..][k - 1];
    }
  }

  /** The error of a failed load is that of the first `.so` file that fails. */
  lemma {:induction false} LoadingFirstFailure(loaded: map<string, Plugin>, files: seq<PluginFile>, k: nat)
    requires k < |files| && LoadFails(files[k])
    requires forall j :: 0 <= j < k ==> !LoadFails(files[j])
    ensures Loading(loaded, files).err == Some(files[k].load.error)
    decreases k
  {
    if k == 0 {
      LoadingStep(loaded, files);
    } else {
      LoadingSkip(loaded, files);
      NoFailureShift(files, k);
      LoadingFirstFailure(LoadedAfter(loaded, files[0]), files[1..], k - 1);
    }
  }

  lemma LoadingSkip(loaded: map<string, Plugin>, files: seq<PluginFile>)
    requires files != [] && !LoadFails(files[0])
    ensures Loading(loaded, files) == Loading(LoadedAfter(loaded, files[0]), files[1..])
  {
    LoadingStep(loaded, files);
  }

  lemma NoFailureShift(files: seq<PluginFile>, k: nat)
    requires 0 < k < |files|
    requires forall j :: 0 <= j < k ==> !LoadFails(files[j])
    ensures files[1..][k - 1] == files[k]
    ensures forall j :: 0 <= j < k - 1 ==> !LoadFails(files[1..][j])
  {
    forall j | 0 <= j < k - 1 ensures !LoadFails(files[1..][j]) {
      assert files[1..][j] == files[j + 1];
    }
  }

  /** Loading one more `.so` file after a successful run registers its plugin under its ID, replacing
      an earlier plugin with the same ID and leaving every other entry as it was. */
  lemma {:induction false} LoadingSnoc(loaded: map<string, Plugin>, files: seq<PluginFile>, f: PluginFile)
    requires Loading(loaded, files).err.None?
    requires Ext(f.name) == ".so" && f.load.Success?
    ensures Loading(loaded, files + [f]).err.None?
    ensures Loading(loaded, files + [f]).loaded == Loading(loaded, files).loaded[f.load.value.id := f.load.value]
    decreases |files|
  {
    if files == [] {
      assert [f][1..] == [];
    } else {
      assert (files + [f])[0] == files[0] && (files + [f])[1..] == files[1..] + [f];
      if Ext(files[0].name) != ".so" {
        LoadingSnoc(loaded, files[1..], f);
      } else {
        var p := files[0].load.value;
        LoadingSnoc(loaded[p.id := p], files[1..], f);
      }
    }
  }

  /** The definitions of the loaded plugins. */
  function Definitions(loaded: map<string, Plugin>): set<FunctionDefinition>
  {
    set k | k in loaded :: loaded[k].definition
  }

  /** Definitions listed along an order that visits every loaded ID are exactly the plugins'
      definitions: each plugin's definition is listed and each listed definition is some plugin's. */
  lemma {:induction false} DefinitionsCover(loaded: map<string, Plugin>, definitions: seq<FunctionDefinition>, order: seq<string>)
    requires |definitions| == |order|
    requires forall k :: k in loaded <==> k in order
    requires forall i :: 0 <= i < |order| ==> order[i] in loaded && definitions[i] == loaded[order[i]].definition
    ensures forall d :: d in definitions <==> d in Definitions(loaded)
  {
    forall d | d in Definitions(loaded)
      ensures d in definitions
    {
      var k :| k in loaded && loaded[k].definition == d;
      var i :| 0 <= i < |order| && order[i] == k;
      assert definitions[i] == d;
    }
    forall d | d in definitions
      ensures d in Definitions(loaded)
    {
      var i :| 0 <= i < |definitions| && definitions[i] == d;
      var k := order[i];
      assert k in loaded && loaded[k].definition == d;
    }
  }

  // ---------------------------------------------------------------------
  // The registry

  class Registry {
    /** `loadedPlugins`. */
    var loaded: map<string, Plugin>

    predicate Valid()
      reads this
    {
      KeyedById(loaded)
    }

    constructor ()
      ensures loaded == map[]
      ensures Valid()
    {
      loaded := map[];
    }

    /** `LoadPlugins`: empties the registry, then loads the `.so` files of the directory listing in
        order; a failed listing or the first failed load is returned as the error. */
    method LoadPlugins(dir: Result<seq<PluginFile>, string>) returns (err: Option<string>)
      modifies this
      ensures dir.Failure? ==> loaded == map[] && err == Some(dir.error)
      ensures dir.Success? ==> LoadOutcome(loaded, err) == Loading(map[], dir.value)
      ensures Valid()
    {
      loaded := map[];
      if dir.Failure? {
        return Some(dir.error);
      }
      var files := dir.value;
      var i := 0;
      while i < |files|
        invariant 0 <= i <= |files|
        invariant Loading(map[], files) == Loading(loaded, files[i..])
        invariant Valid()
      {
        assert files[i..][1..] == files[i + 1..];
        if Ext(files[i].name) == ".so" {
          var e := LoadSinglePlugin(files[i]);
          if e.Some? {
            return e;
          }
        }
        i := i + 1;
      }
      return None;
    }

    /** `loadSinglePlugin`: registers the loaded plugin under its ID, or returns the load error. */
    method LoadSinglePlugin(file: PluginFile) returns (err: Option<string>)
      requires Valid()
      modifies this
      ensures file.load.Failure? ==> err == Some(file.load.error) && loaded == old(loaded)
      ensures file.load.Success? ==> err.None? && loaded == old(loaded)[file.load.value.id := file.load.value]
      ensures Valid()
    {
      match file.load
      case Failure(e) =>
        return Some(e);
      case Success(p) =>
        loaded := loaded[p.id := p];
        return None;
    }

    /** `IsPluginLoaded`. */
    predicate IsPluginLoaded(id: string)
      reads this
    {
      id in loaded
    }

    /** `GetPluginByID`: the plugin, reported present exactly when it is loaded. */
    function GetPluginByID(id: string): (r: Option<Plugin>)
      reads this
      ensures r.Some? <==> IsPluginLoaded(id)
      ensures r.Some? ==> r.value == loaded[id]
    {
      if id in loaded then Some(loaded[id]) else None
    }

    /** `CallPlugin`, up to marshalling the envelope. */
    function CallPlugin(id: string, jsonInput: string): (r: PluginResponse)
      reads this
      ensures !IsPluginLoaded(id) ==> r == PluginResponse("plugin with ID " + id + " not found", [])
      ensures IsPluginLoaded(id) && loaded[id].execute(jsonInput).Failure? ==>
        r == PluginResponse(loaded[id].execute(jsonInput).error, [])
      ensures IsPluginLoaded(id) && loaded[id].execute(jsonInput).Success? ==>
        r == PluginResponse([], loaded[id].execute(jsonInput).value)
    {
      match GetPluginByID(id)
      case None => PluginResponse("plugin with ID " + id + " not found", [])
      case Some(plugin) =>
        match plugin.execute(jsonInput)
        case Failure(e) => PluginResponse(e, [])
        case Success(result) => PluginResponse([], result)
    }

    /** `GenerateOpenAIFunctionsDefinition`: one definition per loaded plugin, in the map's iteration
        order, which `order` records. */
    method GenerateOpenAIFunctionsDefinition() returns (definitions: seq<FunctionDefinition>, ghost order: seq<string>)
      ensures |definitions| == |order| == |loaded|
      ensures forall i, j :: 0 <= i < j < |order| ==> order[i] != order[j]
      ensures forall id :: id in loaded <==> id in order
      ensures forall i :: 0 <= i < |order| ==> order[i] in loaded && definitions[i] == loaded[order[i]].definition
      ensures |definitions| == |loaded| && forall d :: d in definitions <==> d in Definitions(loaded)
    {
      definitions, order := [], [];
      var remaining := loaded.Keys;
      while remaining != {}
        invariant remaining <= loaded.Keys
        invariant |definitions| == |order|
        invariant forall i, j :: 0 <= i < j < |order| ==> order[i] != order[j]
        invariant forall id :: id in loaded <==> id in order || id in remaining
        invariant forall i :: 0 <= i < |order| ==> order[i] !in remaining
        invariant forall i :: 0 <= i < |order| ==> order[i] in loaded && definitions[i] == loaded[order[i]].definition
        invariant |order| + |remaining| == |loaded.Keys|
        decreases |remaining|
      {
        var id :| id in remaining;
        definitions := definitions + [loaded[id].definition];
        order := order + [id];
        remaining := remaining - {id};
      }
      assert |loaded.Keys| == |loaded|;
      DefinitionsCover(loaded, definitions, order);
    }
  }
}
