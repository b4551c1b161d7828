/** The capability loader: `load_library`, which opens a library and strips
    its deny-listed members, and `require_library`, the script-facing
    `require(name)` that resolves a name through the `package.loaded`
    cache, a static table of built-in libraries, or an external script
    under the configured root directory. */
module Loader {
  import opened Common

  /** The Lua values the loader handles. A table records whether it carries
      the empty marker metatable that identifies sandbox libraries. */
  datatype Value =
    | Nil
    | Boolean(b: bool)
    | Opaque(id: nat)  // any other value: function, number, string, userdata
    | Table(fields: map<string, Value>, marked: bool)
    | LoadedTable  // a reference to the `package.loaded` table itself

  const OS_DENY: seq<string> := ["execute", "exit", "remove", "rename", "setlocale", "tmpname"]

  const CJSON_DENY: seq<string> := ["encode", "encode_sparse_array", "encode_max_depth",
    "encode_number_precision", "encode_keep_buffer", "encode_invalid_numbers"]

  const MAX_PATH: nat := 255
  const PATH_DELIMITER: char := '/'

  /** The names `require` opens itself. */
  const BUILTIN_NAMES: set<string> := {"string", "math", "table", "os", "circular_buffer",
    "bloom_filter", "hyperloglog", "lpeg", "pb", "cjson"}

  /** The `strcmp` chain of `require_library`: for a built-in library, the
      deny-list it is opened with; None for any other name. Exactly the ten
      built-in names are recognised; `os` and `cjson` lose their listed
      members, every other built-in none; and no built-in name would fail the
      character check of the external branch. */
  function BuiltinDenyList(name: string): (r: Option<seq<string>>)
    ensures r.Some? <==> name in BUILTIN_NAMES
    ensures name == "os" ==> r == Some(OS_DENY)
    ensures name == "cjson" ==> r == Some(CJSON_DENY)
    ensures r.Some? && name != "os" && name != "cjson" ==> r == Some([])
    ensures r.Some? ==> IsModuleName(name)
  {
    if name == "string" then Some([])
    else if name == "math" then Some([])
    else if name == "table" then Some([])
    else if name == "os" then Some(OS_DENY)
    else if name == "circular_buffer" then Some([])
    else if name == "bloom_filter" then Some([])
    else if name == "hyperloglog" then Some([])
    else if name == "lpeg" then Some([])
    else if name == "pb" then Some([])
    else if name == "cjson" then Some(CJSON_DENY)
    else None
  }

  function Denied(deny: seq<string>): set<string>
  {
    set k | k in deny
  }

  /** A character `isalnum` accepts in the C locale, or an underscore. */
  predicate IsNameChar(c: char)
  {
    ('a' <= c <= 'z') || ('A' <= c <= 'Z') || ('0' <= c <= '9') || c == '_'
  }

  predicate IsModuleName(name: string)
  {
    forall i | 0 <= i < |name| :: IsNameChar(name[i])
  }

  /** The character loop of `require_library`: it accepts the name exactly
      when every character is a letter, a digit or an underscore. */
  method CheckModuleName(name: string) returns (ok: bool)
    ensures ok <==> IsModuleName(name)
  {
    var i := 0;
    while i < |name|
      invariant 0 <= i <= |name|
      invariant forall j | 0 <= j < i :: IsNameChar(name[j])
    {
      if !IsNameChar(name[i]) {
        return false;
      }
      i := i + 1;
    }
    return true;
  }

  /** The message raised for a name the character check refuses. */
  function InvalidModuleName(name: string): string
  {
    "invalid module name '" + name + "'"
  }

  /** `snprintf(fn, MAX_PATH, "%s%c%s.lua", root, PATH_DELIMITER, name)`
      and its length check: the composed path, or None when it needs
      MAX_PATH characters or more. */
  function ModulePath(root: string, name: string): (r: Option<string>)
    ensures r.Some? <==> |root| + |name| + 5 < MAX_PATH
    ensures r.Some? ==>
      && |r.value| == |root| + |name| + 5
      && r.value[..|root|] == root
      && r.value[|root|] == PATH_DELIMITER
      && r.value[|root| + 1..] == name + ".lua"
  {
    var path := root + [PATH_DELIMITER] + name + ".lua";
    assert path[|root| + 1..] == name + ".lua";
    if |path| >= MAX_PATH then None else Some(path)
  }

  /** A validated module name cannot leave the root directory: past the
      root and its separator the path holds no separator, and its only dot
      is the one of the extension. */
  lemma ModulePathStaysInRoot(root: string, name: string)
    requires IsModuleName(name) && ModulePath(root, name).Some?
    ensures var path := ModulePath(root, name).value;
      && (forall i | |root| < i < |path| :: path[i] != PATH_DELIMITER)
      && (forall i | |root| < i < |path| - 4 :: path[i] != '.')
  {
  }

  /** What `luaL_dofile` produced: every value the chunk returned, or the
      engine's diagnostic for a missing file, a syntax error or a runtime
      error. */
  datatype Chunk = Returned(values: seq<Value>) | Failed(diagnostic: string)

  /** The value `require_library` finds on top of the stack once the chunk
      has run (`luaL_dofile` keeps every returned value): the last one, or,
      when the chunk returned nothing, the `package.loaded` table beneath. */
  function ChunkResult(values: seq<Value>): Value
  {
    if |values| == 0 then LoadedTable else values[|values| - 1]
  }

  /** The state of the `package` global as `require_library` finds it. */
  datatype Package = NoPackage | NoLoadedTable | Present(loaded: map<string, Value>)

  /** The part of the engine state the loader reads and writes. `ran` logs
      every path handed to `luaL_dofile`, in order. */
  datatype World = World(package: Package, globals: map<string, Value>, ran: seq<string>)

  /** Lua reads a missing key as nil. */
  function Lookup(cache: map<string, Value>, name: string): Value
  {
    if name in cache then cache[name] else Nil
  }

  /** `lua_setfield`: storing nil removes the key, any other value replaces
      what the key held, and no other key changes. */
  function Store(cache: map<string, Value>, name: string, v: Value): (r: map<string, Value>)
    ensures Lookup(r, name) == v
    ensures forall k | k in cache && k != name :: k in r && r[k] == cache[k]
    ensures forall k | k in r && k != name :: k in cache
  {
    if v.Nil? then cache - {name} else cache[name := v]
  }

  /** Attach the empty marker metatable to a table; other values are not
      tracked. */
  function Mark(v: Value): Value
  {
    if v.Table? then v.(marked := true) else v
  }

  /** `package.loaded[name] = v`. */
  function Finish(w: World, name: string, v: Value): World
    requires w.package.Present?
  {
    w.(package := Present(Store(w.package.loaded, name, v)))
  }

  /** The placeholder step: `package.loaded[name] = true`, so that a nested
      `require` of the same name finds a non-nil entry; no other entry, no
      global and no file changes. */
  function Claim(w: World, name: string): (c: World)
    requires w.package.Present?
    ensures c.package.Present? && Lookup(c.package.loaded, name) == Boolean(true)
    ensures forall k | k != name :: Lookup(c.package.loaded, k) == Lookup(w.package.loaded, k)
    ensures c.globals == w.globals && c.ran == w.ran
  {
    w.(package := Present(w.package.loaded[name := Boolean(true)]))
  }

  /** A built-in branch of `require_library`, run after the placeholder is in
      place: open the library through `open`, strip its deny-list, mark it,
      publish `cjson` as a global as well, and store it in the cache. */
  function RequireBuiltin(w: World, name: string, deny: seq<string>,
                          open: string -> map<string, Value>): (r: (World, Result<Value>))
    requires w.package.Present?
    ensures r.1.Ok? && r.1.value.Table? && r.1.value.marked
    ensures forall m :: m in r.1.value.fields <==> m in open(name) && m !in deny
    ensures r.0.package.Present? && Lookup(r.0.package.loaded, name) == r.1.value
    ensures r.0.ran == w.ran
  {
    var t := Table(open(name) - Denied(deny), true);
    var g := if name == "cjson" then w.globals[name := t] else w.globals;
    (Finish(w.(globals := g), name, t), Ok(t))
  }

  /** The external branch of `require_library`, run after the placeholder is
      in place. */
  function RequireExternal(w: World, name: string, requirePath: Option<string>,
                           dofile: string -> Chunk): (r: (World, Result<Value>))
    requires w.package.Present?
    ensures r.0.package.Present? && r.0.globals == w.globals
    ensures r.1.Err? ==> r.0.package == w.package
    ensures r.1.Ok? ==> Lookup(r.0.package.loaded, name) == r.1.value
    ensures r.0.ran == w.ran || (
      && requirePath.Some? && IsModuleName(name)
      && ModulePath(UpToNul(requirePath.value, '\0'), name).Some?
      && r.0.ran == w.ran + [ModulePath(UpToNul(requirePath.value, '\0'), name).value])
  {
    match requirePath
    case None => (w, Err("require_library() external modules are disabled"))
    case Some(root) =>
      if !IsModuleName(name) then (w, Err(InvalidModuleName(name)))
      else
        match ModulePath(UpToNul(root, '\0'), name)
        case None => (w, Err("require_path exceeded 255"))
        case Some(path) =>
          var w' := w.(ran := w.ran + [path]);
          match dofile(path)
          case Failed(diagnostic) => (w', Err(diagnostic))
          case Returned(values) =>
            var v := Mark(ChunkResult(values));
            (Finish(w', name, v), Ok(v))
  }

  /** `require_library(arg)`: the world it leaves and what it returns or
      raises. `open(n)` is the table the library loader for `n` returns and
      `dofile(p)` what running the script at `p` produces. A raised error
      keeps every change made before it, the placeholder included. */
  function Require(w: World, arg: string, requirePath: Option<string>,
                   open: string -> map<string, Value>, dofile: string -> Chunk): (r: (World, Result<Value>))
    ensures r.0.package.Present? <==> w.package.Present?
    ensures r.1.Ok? && w.package.Present? ==> Lookup(r.0.package.loaded, UpToNul(arg, '\0')) == r.1.value
    ensures r.0.globals == w.globals || (r.1.Ok? && r.0.globals == w.globals["cjson" := r.1.value])
    ensures r.0.ran == w.ran || (|r.0.ran| == |w.ran| + 1 && r.0.ran[..|w.ran|] == w.ran)
  {
    var name := UpToNul(arg, '\0');
    match w.package
    case NoPackage => (w, Err("package table is missing"))
    case NoLoadedTable => (w, Err("package.loaded table is missing"))
    case Present(cache) =>
      if !Lookup(cache, name).Nil? then (w, Ok(cache[name]))
      else
        match BuiltinDenyList(name)
        case Some(deny) => RequireBuiltin(Claim(w, name), name, deny, open)
        case None => RequireExternal(Claim(w, name), name, requirePath, dofile)
  }

  /** A cached name is answered from the cache with nothing loaded, run or
      changed. */
  lemma RequireCached(w: World, arg: string, requirePath: Option<string>,
                      open: string -> map<string, Value>, dofile: string -> Chunk)
    requires w.package.Present? && !Lookup(w.package.loaded, UpToNul(arg, '\0')).Nil?
    ensures Require(w, arg, requirePath, open, dofile) == (w, Ok(w.package.loaded[UpToNul(arg, '\0')]))
  {
  }

  /** Without a `package` table, or without `package.loaded`, `require`
      raises and changes nothing. */
  lemma RequireWithoutCache(w: World, arg: string, requirePath: Option<string>,
                            open: string -> map<string, Value>, dofile: string -> Chunk)
    requires !w.package.Present?
    ensures var (w1, r) := Require(w, arg, requirePath, open, dofile);
      && w1 == w
      && r == Err(if w.package.NoPackage? then "package table is missing" else "package.loaded table is missing")
  {
  }

  /** A second `require` of a name returns what the first returned, without
      loading again, unless the first returned nil (which clears the cache
      entry); after a failed first `require` it returns the `true`
      placeholder that the failure left in the cache. */
  lemma RequireTwice(w: World, arg: string, requirePath: Option<string>,
                                        open: string -> map<string, Value>, dofile: string -> Chunk)
    requires w.package.Present?
    ensures var (w1, r1) := Require(w, arg, requirePath, open, dofile);
      && w1.package.Present?
      && var (w2, r2) := Require(w1, arg, requirePath, open, dofile);
      && (r1.Ok? && !r1.value.Nil? ==> w2 == w1 && r2 == r1)
      && (r1.Err? ==> w2 == w1 && r2 == Ok(Boolean(true)))
  {
  }

  /** A module that requires itself while it loads sees the placeholder:
      from the claimed state, `require` of the same name returns `true` and
      opens no library and runs no file. */
  lemma SelfRequireSeesPlaceholder(w: World, arg: string, requirePath: Option<string>,
                                   open: string -> map<string, Value>, dofile: string -> Chunk)
    requires w.package.Present?
    ensures var claimed := Claim(w, UpToNul(arg, '\0'));
      Require(claimed, arg, requirePath, open, dofile) == (claimed, Ok(Boolean(true)))
  {
  }

  /** Requiring a built-in library that is not cached yields a marked table
      holding exactly the members its loader provides minus its deny-list,
      caches that table, runs no file, and changes the globals only for
      `cjson`, which it publishes under its own name. */
  lemma BuiltinLoaded(w: World, arg: string, requirePath: Option<string>,
                      open: string -> map<string, Value>, dofile: string -> Chunk)
    requires w.package.Present? && Lookup(w.package.loaded, UpToNul(arg, '\0')).Nil?
    requires BuiltinDenyList(UpToNul(arg, '\0')).Some?
    ensures var name := UpToNul(arg, '\0');
      var deny := BuiltinDenyList(name).value;
      var (w1, r) := Require(w, arg, requirePath, open, dofile);
      && r.Ok? && r.value.Table? && r.value.marked
      && (forall m :: m in r.value.fields <==> m in open(name) && m !in deny)
      && (forall m | m in r.value.fields :: r.value.fields[m] == open(name)[m])
      && w1.package.Present? && Lookup(w1.package.loaded, name) == r.value
      && w1.ran == w.ran
      && w1.globals == (if name == "cjson" then w.globals[name := r.value] else w.globals)
  {
  }

  /** Requiring a valid external name, not cached and not built-in, under a
      root that leaves the path short enough, runs exactly the file
      `<root>/<name>.lua` and leaves the globals alone. A failing chunk raises
      its own diagnostic and the `true` placeholder stays cached. Otherwise
      the chunk's last value, marked when it is a table, is returned and
      cached; a chunk that returns nothing yields the `package.loaded` table
      itself. */
  lemma ExternalLoaded(w: World, arg: string, root: string,
                       open: string -> map<string, Value>, dofile: string -> Chunk)
    requires w.package.Present? && Lookup(w.package.loaded, UpToNul(arg, '\0')).Nil?
    requires BuiltinDenyList(UpToNul(arg, '\0')).None? && IsModuleName(UpToNul(arg, '\0'))
    requires ModulePath(UpToNul(root, '\0'), UpToNul(arg, '\0')).Some?
    ensures var name := UpToNul(arg, '\0');
      var path := UpToNul(root, '\0') + "/" + name + ".lua";
      var (w1, r) := Require(w, arg, Some(root), open, dofile);
      var chunk := dofile(path);
      && w1.ran == w.ran + [path]
      && w1.globals == w.globals
      && w1.package.Present?
      && (chunk.Failed? ==> r == Err(chunk.diagnostic) && Lookup(w1.package.loaded, name) == Boolean(true))
      && (chunk == Returned([]) ==> r == Ok(LoadedTable) && Lookup(w1.package.loaded, name) == LoadedTable)
      && (chunk.Returned? && |chunk.values| > 0 ==>
            var last := chunk.values[|chunk.values| - 1];
            && r == Ok(if last.Table? then last.(marked := true) else last)
            && Lookup(w1.package.loaded, name) == r.value)
  {
    var name := UpToNul(arg, '\0');
    var path := UpToNul(root, '\0') + "/" + name + ".lua";
    assert ModulePath(UpToNul(root, '\0'), name) == Some(path);
  }

  /** A script that requires `os` gets no way to run commands, exit the
      process or touch files. */
  lemma {:induction false} OsMembersRemoved(w: World, arg: string, requirePath: Option<string>,
                                            open: string -> map<string, Value>, dofile: string -> Chunk)
    requires arg == "os" && w.package.Present? && Lookup(w.package.loaded, arg).Nil?
    ensures var (_, r) := Require(w, arg, requirePath, open, dofile);
      && r.Ok? && r.value.Table?
      && "execute" !in r.value.fields && "exit" !in r.value.fields && "remove" !in r.value.fields
      && "rename" !in r.value.fields && "setlocale" !in r.value.fields && "tmpname" !in r.value.fields
  {
    UpToNulOfNulFree(arg, '\0');
    BuiltinLoaded(w, arg, requirePath, open, dofile);
  }

  /** A script that requires `cjson` gets its decoder but no encoder and
      none of the encoder's settings. */
  lemma {:induction false} CjsonMembersRemoved(w: World, arg: string, requirePath: Option<string>,
                                               open: string -> map<string, Value>, dofile: string -> Chunk)
    requires arg == "cjson" && w.package.Present? && Lookup(w.package.loaded, arg).Nil?
    ensures var (w1, r) := Require(w, arg, requirePath, open, dofile);
      && r.Ok? && r.value.Table?
      && "encode" !in r.value.fields && "encode_sparse_array" !in r.value.fields
      && "encode_max_depth" !in r.value.fields && "encode_number_precision" !in r.value.fields
      && "encode_keep_buffer" !in r.value.fields && "encode_invalid_numbers" !in r.value.fields
      && ("decode" in open(arg) ==> "decode" in r.value.fields)
      && w1.globals == w.globals[arg := r.value]
  {
    UpToNulOfNulFree(arg, '\0');
    BuiltinLoaded(w, arg, requirePath, open, dofile);
  }

  /** The guards of the external branch. With no root configured, or with a
      name holding a character other than a letter, a digit or an
      underscore, `require` raises and runs no file; without a root it
      raises "external modules are disabled". Otherwise it runs at most one
      file, `<root>/<name>.lua`, shorter than MAX_PATH, and it raises
      "require_path exceeded 255" when the path would be longer. */
  lemma ExternalGuards(w: World, arg: string, requirePath: Option<string>,
                       open: string -> map<string, Value>, dofile: string -> Chunk)
    requires w.package.Present? && Lookup(w.package.loaded, UpToNul(arg, '\0')).Nil?
    requires BuiltinDenyList(UpToNul(arg, '\0')).None?
    ensures var name := UpToNul(arg, '\0');
      var (w1, r) := Require(w, arg, requirePath, open, dofile);
      && (requirePath.None? ==> r == Err("require_library() external modules are disabled") && w1.ran == w.ran)
      && (!IsModuleName(name) ==> r.Err? && w1.ran == w.ran)
      && (requirePath.Some? && |UpToNul(requirePath.value, '\0')| + |name| + 5 >= MAX_PATH ==> r.Err? && w1.ran == w.ran)
      && (requirePath.Some? && IsModuleName(name) && |UpToNul(requirePath.value, '\0')| + |name| + 5 >= MAX_PATH ==>
            r == Err("require_path exceeded 255"))
      && (w1.ran == w.ran || (
            && requirePath.Some? && IsModuleName(name)
            && w1.ran == w.ran + [UpToNul(requirePath.value, '\0') + "/" + name + ".lua"]
            && |w1.ran[|w.ran|]| < MAX_PATH))
  {
  }

  /** A name that fails the character check, such as "../etc/passwd" that
      would climb out of the root directory, is refused before any file is
      opened, whatever the root, and keeps its placeholder. */
  lemma InvalidNameRefused(w: World, arg: string, root: string,
                           open: string -> map<string, Value>, dofile: string -> Chunk)
    requires w.package.Present? && Lookup(w.package.loaded, UpToNul(arg, '\0')).Nil?
    requires !IsModuleName(UpToNul(arg, '\0'))
    ensures var name := UpToNul(arg, '\0');
      var (w1, r) := Require(w, arg, Some(root), open, dofile);
      && r == Err(InvalidModuleName(name))
      && w1.ran == w.ran
      && w1.package.Present? && Lookup(w1.package.loaded, name) == Boolean(true)
  {
  }

  /** "../etc/passwd" is such a name. */
  lemma TraversalNameInvalid(arg: string)
    requires arg == "../etc/passwd"
    ensures UpToNul(arg, '\0') == arg && !IsModuleName(arg)
  {
  }

  /** The engine state the loader works on: the globals table, the
      `package` global and the log of script files run. */
  class Interpreter {
    var globals: map<string, Value>
    var package: Package
    ghost var ran: seq<string>

    ghost function Snapshot(): World
      reads this
    {
      World(package, globals, ran)
    }

    constructor (globals: map<string, Value>, package: Package)
      ensures Snapshot() == World(package, globals, [])
    {
      this.globals := globals;
      this.package := package;
      ran := [];
    }

    /** `load_library(table, f, disable)`: `provided` is the table the loader
        `f` returns. The deny-list is cleared from the globals for the base
        table "" and otherwise from the returned table, which then gets the
        marker metatable. */
    method LoadLibrary(table: string, provided: map<string, Value>, deny: seq<string>) returns (lib: Value)
      modifies this`globals
      ensures table == "" ==> globals == old(globals) - Denied(deny) && lib == Table(provided, false)
      ensures table != "" ==> globals == old(globals) && lib == Table(provided - Denied(deny), true)
    {
      var fields := provided;  // lua_call(f)
      var i := 0;
      if |table| == 0 {
        while i < |deny|
          invariant 0 <= i <= |deny|
          invariant globals == old(globals) - Denied(deny[..i])
        {
          assert Denied(deny[..i + 1]) == Denied(deny[..i]) + {deny[i]} by {
            assert deny[..i + 1] == deny[..i] + [deny[i]];
          }
          globals := globals - {deny[i]};
          i := i + 1;
        }
        lib := Table(fields, false);
      } else {
        while i < |deny|
          invariant 0 <= i <= |deny|
          invariant fields == provided - Denied(deny[..i])
        {
          assert Denied(deny[..i + 1]) == Denied(deny[..i]) + {deny[i]} by {
            assert deny[..i + 1] == deny[..i] + [deny[i]];
          }
          fields := fields - {deny[i]};
          i := i + 1;
        }
        lib := Table(fields, true);  // lua_setmetatable with an empty table
      }
      assert deny[..|deny|] == deny;
    }

    /** The built-in branch of `require_library`. */
    method LoadBuiltin(name: string, deny: seq<string>, open: string -> map<string, Value>) returns (r: Result<Value>)
      requires package.Present? && name != ""
      modifies this
      ensures (Snapshot(), r) == RequireBuiltin(old(Snapshot()), name, deny, open)
    {
      var value := LoadLibrary(name, open(name), deny);
      if name == "cjson" {
        globals := globals[name := value];  // lua_setglobal
      }
      package := Present(Store(package.loaded, name, value));
      r := Ok(value);
    }

    /** The external branch of `require_library`. */
    method LoadExternal(name: string, requirePath: Option<string>, dofile: string -> Chunk) returns (r: Result<Value>)
      requires package.Present?
      modifies this
      ensures (Snapshot(), r) == RequireExternal(old(Snapshot()), name, requirePath, dofile)
    {
      if requirePath.None? {
        return Err("require_library() external modules are disabled");
      }
      var valid := CheckModuleName(name);
      if !valid {
        return Err(InvalidModuleName(name));
      }
      var path := ModulePath(UpToNul(requirePath.value, '\0'), name);
      if path.None? {
        return Err("require_path exceeded 255");
      }
      ran := ran + [path.value];
      var chunk := dofile(path.value);  // luaL_dofile
      if chunk.Failed? {
        return Err(chunk.diagnostic);
      }
      var value := Mark(ChunkResult(chunk.values));
      package := Present(Store(package.loaded, name, value));
      r := Ok(value);
    }

    /** `require_library(arg)`, step by step as the source runs it; its
        effect is exactly that of `Require`. */
    method RequireLibrary(arg: string, requirePath: Option<string>,
                          open: string -> map<string, Value>, dofile: string -> Chunk) returns (r: Result<Value>)
      modifies this
      ensures (Snapshot(), r) == Require(old(Snapshot()), arg, requirePath, open, dofile)
    {
      var name := UpToNul(arg, '\0');  // luaL_checkstring, read as a C string
      if package.NoPackage? {
        return Err("package table is missing");
      }
      if package.NoLoadedTable? {
        return Err("package.loaded table is missing");
      }
      var cached := Lookup(package.loaded, name);
      if !cached.Nil? {
        return Ok(cached);  // the cache copy
      }
      package := Present(package.loaded[name := Boolean(true)]);  // mark it as loaded
      var deny := BuiltinDenyList(name);
      if deny.Some? {
        r := LoadBuiltin(name, deny.value, open);
      } else {
        r := LoadExternal(name, requirePath, dofile);
      }
    }
  }
}
