/**
 * RecipesAPI: the plugin's list of recipes and what it tells the server.
 * The server's recipe table is modelled as a map from key to the converted
 * recipe; the list is the API's own, in the order recipes were added.
 */
module RecipesApi {
  import opened Wrappers
  import opened JavaStrings
  import opened RecipeTypes
  import opened Util
  import opened Yaml
  import opened ItemRecipes
  import opened Configuration
  import opened Sequences

  /** An entry a directory walk reaches: its file name, whether it is a regular file, and its YAML. */
  datatype RecipeFile = RecipeFile(name: string, isFile: bool, config: Config)

  /** The walk's filter: regular files whose name ends in ".yml". */
  predicate IsRecipeFile(f: RecipeFile) {
    f.isFile && EndsWith(f.name, ".yml")
  }

  /**
   * loadRecipe: the file name without ".yml" names the recipe at the top of
   * the file, which build() turns into a record of priority 0.
   */
  function LoadFile(cat: Catalog, f: RecipeFile): (r: Result<ItemRecipe>)
    ensures ReadTopLevel(cat, RemoveAll(f.name, ".yml"), f.config).Err? ==> r.Err?
    ensures ReadTopLevel(cat, RemoveAll(f.name, ".yml"), f.config).Ok? ==>
              r == BuildConfigured(ReadTopLevel(cat, RemoveAll(f.name, ".yml"), f.config).value)
    ensures r.Ok? ==> r.value.priority == 0 && r.value.recipeName == RemoveAll(RemoveAll(f.name, ".yml"), ".yml")
  {
    var c :- ReadTopLevel(cat, RemoveAll(f.name, ".yml"), f.config);
    BuildConfigured(c)
  }

  /** A file "n.yml", with no other ".yml" in it, holds the recipe named n. */
  lemma LoadFileName(cat: Catalog, n: string, config: Config)
    requires !ContainsSub(n, ".yml")
    ensures LoadFile(cat, RecipeFile(n + ".yml", true, config)).Ok? ==>
              LoadFile(cat, RecipeFile(n + ".yml", true, config)).value.recipeName == n
  {
    RemoveYmlSuffix(n);
    RemoveAllAbsent(n, ".yml");
  }

  // ------------------------------------------------------------------- state

  type Table = map<NamespacedKey, NativeRecipe>

  datatype ApiState = ApiState(recipes: seq<ItemRecipe>, server: Table)

  /** A state after an operation that may throw part-way. */
  datatype Step = Step(state: ApiState, outcome: Outcome)

  /** How a recipe file is read into a recipe. */
  type Reader = RecipeFile -> Result<ItemRecipe>

  /** How a recipe is converted for the server (toBukkitRecipe). */
  type Converter = ItemRecipe -> Result<NativeRecipe>

  /** The reader loadRecipe uses. */
  function FileLoader(cat: Catalog): Reader {
    f => LoadFile(cat, f)
  }

  /** toBukkitRecipe with the registered namespace. */
  function ServerConverter(cat: Catalog, namespace: string): Converter {
    r => ToBukkitRecipe(cat, Some(namespace), r)
  }

  /** recipe.getKey() in the namespace the constructor registered. */
  function KeyOf(namespace: string, r: ItemRecipe): NamespacedKey {
    KeyFor(namespace, r.recipeType, r.recipeName)
  }

  /** The keys of a list of recipes. */
  function KeysOf(namespace: string, rs: seq<ItemRecipe>): set<NamespacedKey> {
    set r | r in rs :: KeyOf(namespace, r)
  }

  /** A converter whose recipes carry the recipe's own key. */
  ghost predicate KeyedBy(convert: Converter, namespace: string) {
    forall r :: convert(r).Ok? ==> convert(r).value.key == KeyOf(namespace, r)
  }

  /** toBukkitRecipe files each recipe under getKey(). */
  lemma ServerConverterKeyed(cat: Catalog, namespace: string)
    ensures KeyedBy(ServerConverter(cat, namespace), namespace)
  {
    forall r ensures ServerConverter(cat, namespace)(r).Ok? ==>
                     ServerConverter(cat, namespace)(r).value.key == KeyOf(namespace, r)
    {
      assert ServerConverter(cat, namespace)(r) == ToBukkitRecipe(cat, Some(namespace), r);
    }
  }

  /**
   * server.addRecipe(recipe.toBukkitRecipe()): the conversion may throw;
   * otherwise the table holds the converted recipe under its key and every
   * other entry is left alone.
   */
  function Register(convert: Converter, server: Table, r: ItemRecipe): (t: Result<Table>)
    ensures t.Ok? <==> convert(r).Ok?
    ensures t.Ok? ==> t.value.Keys == server.Keys + {convert(r).value.key}
    ensures t.Ok? ==> t.value[convert(r).value.key] == convert(r).value
    ensures t.Ok? ==> forall k :: k in server && k != convert(r).value.key ==> t.value[k] == server[k]
  {
    var n :- convert(r);
    Ok(server[n.key := n])
  }

  /**
   * addRecipe(recipe, register): the recipe is appended first, so it stays
   * listed even when registering it throws; an equal recipe already listed
   * is not looked for.
   */
  function Add(convert: Converter, s: ApiState, r: ItemRecipe, register: bool): (st: Step)
    ensures st.state.recipes == s.recipes + [r]
    ensures !register ==> st == Step(ApiState(s.recipes + [r], s.server), Done)
    ensures register ==> (st.outcome.Done? <==> convert(r).Ok?)
    ensures st.outcome.Done? && register ==> st.state.server == Register(convert, s.server, r).value
    ensures st.outcome.Threw? ==> st.state.server == s.server
  {
    var listed := s.recipes + [r];
    if !register then Step(ApiState(listed, s.server), Done)
    else match Register(convert, s.server, r)
      case Err(e) => Step(ApiState(listed, s.server), Threw(e))
      case Ok(t) => Step(ApiState(listed, t), Done)
  }

  /** A registered recipe is on the server under its own key. */
  lemma AddRegisters(convert: Converter, namespace: string, s: ApiState, r: ItemRecipe)
    requires KeyedBy(convert, namespace) && convert(r).Ok?
    ensures Add(convert, s, r, true).state.server.Keys == s.server.Keys + {KeyOf(namespace, r)}
    ensures Add(convert, s, r, true).state.server[KeyOf(namespace, r)] == convert(r).value
  {
  }

  /** Adding the same recipe twice lists it twice; one removal leaves one copy. */
  lemma DuplicatesKept(convert: Converter, s: ApiState, r: ItemRecipe, register: bool)
    ensures var twice := Add(convert, Add(convert, s, r, register).state, r, register).state.recipes;
            multiset(twice)[r] == multiset(s.recipes)[r] + 2 &&
            multiset(RemoveFirst(twice, r))[r] == multiset(s.recipes)[r] + 1
  {
    var twice := s.recipes + [r] + [r];
    assert twice[|s.recipes|] == r;
  }

  /** removeRecipe: the server drops the recipe's key, then the list drops its first equal entry. */
  function Remove(namespace: string, s: ApiState, r: ItemRecipe): (t: ApiState)
    ensures t.recipes == RemoveFirst(s.recipes, r)
    ensures KeyOf(namespace, r) !in t.server && t.server.Keys == s.server.Keys - {KeyOf(namespace, r)}
    ensures forall k :: k in t.server ==> t.server[k] == s.server[k]
  {
    ApiState(RemoveFirst(s.recipes, r), s.server - {KeyOf(namespace, r)})
  }

  /** Removing a recipe just added, and not listed before, gives the list and the server back. */
  lemma RemoveUndoesAdd(convert: Converter, namespace: string, s: ApiState, r: ItemRecipe, register: bool)
    requires r !in s.recipes && KeyOf(namespace, r) !in s.server
    requires register ==> KeyedBy(convert, namespace)
    ensures Remove(namespace, Add(convert, s, r, register).state, r) == s
  {
    RemoveUndoesAppend(s.recipes, r);
    var after := Add(convert, s, r, register).state;
    assert Remove(namespace, after, r).server == s.server;
  }

  /** unregisterRecipes: every listed recipe's key leaves the server; the list itself is kept. */
  function Unregister(namespace: string, s: ApiState): (t: ApiState)
    ensures t.recipes == s.recipes
    ensures forall r :: r in s.recipes ==> KeyOf(namespace, r) !in t.server
    ensures forall k :: k in s.server && k !in KeysOf(namespace, s.recipes) ==> k in t.server && t.server[k] == s.server[k]
    ensures t.server.Keys <= s.server.Keys
  {
    ApiState(s.recipes, s.server - KeysOf(namespace, s.recipes))
  }

  /**
   * registerRecipes' scheduled run: each listed recipe in turn is converted and
   * added; the first conversion that throws ends the scheduled run, and the ones
   * before it stay registered.
   */
  function RegisterEach(convert: Converter, server: Table, rs: seq<ItemRecipe>): (st: (Table, Outcome))
    ensures st.1.Done? <==> forall k :: 0 <= k < |rs| ==> convert(rs[k]).Ok?
    ensures server.Keys <= st.0.Keys
    decreases |rs|
  {
    if rs == [] then (server, Done)
    else match Register(convert, server, rs[0])
      case Err(e) => (server, Threw(e))
      case Ok(t) =>
        var rest := RegisterEach(convert, t, rs[1..]);
        assert forall k :: 1 <= k < |rs| ==> rs[k] == rs[1..][k - 1];
        rest
  }

  /** When every conversion succeeds, the server ends up holding every listed recipe's key. */
  lemma {:induction false} RegisterEachKeys(convert: Converter, namespace: string, server: Table, rs: seq<ItemRecipe>)
    requires KeyedBy(convert, namespace)
    requires forall k :: 0 <= k < |rs| ==> convert(rs[k]).Ok?
    ensures RegisterEach(convert, server, rs).0.Keys == server.Keys + KeysOf(namespace, rs)
    decreases |rs|
  {
    if rs != [] {
      var t := Register(convert, server, rs[0]).value;
      assert forall k :: 0 <= k < |rs[1..]| ==> rs[1..][k] == rs[k + 1];
      RegisterEachKeys(convert, namespace, t, rs[1..]);
      assert KeysOf(namespace, rs) == {KeyOf(namespace, rs[0])} + KeysOf(namespace, rs[1..]) by {
        assert forall r :: r in rs <==> r == rs[0] || r in rs[1..];
      }
    }
  }

  /** loadRecipe followed by addRecipe(recipe, true): a file that does not build throws before anything changes. */
  function LoadOne(read: Reader, convert: Converter, s: ApiState, f: RecipeFile): (st: Step)
    ensures read(f).Err? ==> st == Step(s, Threw(read(f).error))
    ensures read(f).Ok? ==> st == Add(convert, s, read(f).value, true)
  {
    match read(f)
    case Err(e) => Step(s, Threw(e))
    case Ok(r) => Add(convert, s, r, true)
  }

  /**
   * forEach(this::loadRecipe) over the walk's recipe files: other entries
   * are skipped, and the first exception ends the walk, leaving what the
   * earlier files added.
   */
  function LoadEach(read: Reader, convert: Converter, s: ApiState, files: seq<RecipeFile>): Step
    decreases |files|
  {
    if files == [] then Step(s, Done)
    else if !IsRecipeFile(files[0]) then LoadEach(read, convert, s, files[1..])
    else
      var st := LoadOne(read, convert, s, files[0]);
      if st.outcome.Threw? then st else LoadEach(read, convert, st.state, files[1..])
  }

  /** Every recipe file reads, and every recipe read converts. */
  predicate AllLoad(read: Reader, convert: Converter, files: seq<RecipeFile>) {
    forall k :: 0 <= k < |files| && IsRecipeFile(files[k]) ==> read(files[k]).Ok? && convert(read(files[k]).value).Ok?
  }

  /** The recipes the recipe files hold, in walk order. */
  function Loaded(read: Reader, convert: Converter, files: seq<RecipeFile>): seq<ItemRecipe>
    requires AllLoad(read, convert, files)
    decreases |files|
  {
    if files == [] then []
    else if !IsRecipeFile(files[0]) then Loaded(read, convert, files[1..])
    else [read(files[0]).value] + Loaded(read, convert, files[1..])
  }

  /**
   * When every recipe file reads and converts, the walk throws nothing and
   * appends the files' recipes in walk order.
   */
  lemma {:induction false} LoadEachAppends(read: Reader, convert: Converter, s: ApiState, files: seq<RecipeFile>)
    requires AllLoad(read, convert, files)
    ensures LoadEach(read, convert, s, files).outcome == Done
    ensures LoadEach(read, convert, s, files).state.recipes == s.recipes + Loaded(read, convert, files)
    decreases |files|
  {
    if files != [] {
      var rest := files[1..];
      assert forall k :: 0 <= k < |rest| ==> rest[k] == files[k + 1];
      if !IsRecipeFile(files[0]) {
        LoadEachAppends(read, convert, s, rest);
      } else {
        var r := read(files[0]).value;
        LoadEachAppends(read, convert, LoadOne(read, convert, s, files[0]).state, rest);
        assert s.recipes + [r] + Loaded(read, convert, rest) == s.recipes + ([r] + Loaded(read, convert, rest));
      }
    }
  }

  /** ... and it registers each of those recipes under its key. */
  lemma {:induction false} LoadEachRegisters(read: Reader, convert: Converter, namespace: string, s: ApiState,
                                             files: seq<RecipeFile>)
    requires KeyedBy(convert, namespace) && AllLoad(read, convert, files)
    ensures LoadEach(read, convert, s, files).state.server.Keys ==
              s.server.Keys + KeysOf(namespace, Loaded(read, convert, files))
    decreases |files|
  {
    if files != [] {
      var rest := files[1..];
      assert forall k :: 0 <= k < |rest| ==> rest[k] == files[k + 1];
      if !IsRecipeFile(files[0]) {
        LoadEachRegisters(read, convert, namespace, s, rest);
      } else {
        var r := read(files[0]).value;
        LoadEachRegisters(read, convert, namespace, LoadOne(read, convert, s, files[0]).state, rest);
        var loaded := Loaded(read, convert, rest);
        assert KeysOf(namespace, [r] + loaded) == {KeyOf(namespace, r)} + KeysOf(namespace, loaded) by {
          assert forall x :: x in [r] + loaded <==> x == r || x in loaded;
        }
      }
    }
  }

  /** Entries that are not recipe files are passed over without a change. */
  lemma {:induction false} OnlyRecipeFilesLoaded(read: Reader, convert: Converter, s: ApiState, files: seq<RecipeFile>)
    requires forall k :: 0 <= k < |files| ==> !IsRecipeFile(files[k])
    ensures LoadEach(read, convert, s, files) == Step(s, Done)
    decreases |files|
  {
    if files != [] {
      assert forall k :: 0 <= k < |files[1..]| ==> files[1..][k] == files[k + 1];
      OnlyRecipeFilesLoaded(read, convert, s, files[1..]);
    }
  }

  /** addConfiguredRecipes: the walk's first entry, the folder itself, is skipped. */
  function AddConfigured(read: Reader, convert: Converter, s: ApiState, walk: seq<RecipeFile>): (st: Step)
    ensures walk == [] ==> st == Step(s, Done)
    ensures walk != [] ==> st == LoadEach(read, convert, s, walk[1..])
  {
    if walk == [] then Step(s, Done) else LoadEach(read, convert, s, walk[1..])
  }

  // ------------------------------------------------------------------- class

  class RecipesAPI {
    /** RecipeType's registered plugin, which getKey reads. */
    const registration: PluginRegistration
    const plugin: string
    const catalog: Catalog
    var recipes: seq<ItemRecipe>
    var server: Table

    /** The registered namespace is set by the constructor and never cleared. */
    ghost predicate Valid()
      reads this, registration
    {
      registration.plugin.Some?
    }

    function Namespace(): (n: string)
      reads this, registration
      requires Valid()
      ensures Some(n) == registration.plugin
    {
      registration.plugin.value
    }

    function State(): (s: ApiState)
      reads this
      ensures s.recipes == recipes && s.server == server
    {
      ApiState(recipes, server)
    }

    /** The constructor: an empty list, and the plugin registered as the key namespace. */
    constructor (plugin: string, catalog: Catalog, server: Table, registration: PluginRegistration)
      modifies registration
      ensures this.plugin == plugin && this.catalog == catalog && this.registration == registration
      ensures recipes == [] && this.server == server
      ensures registration.plugin == Some(plugin) && Valid()
    {
      this.plugin := plugin;
      this.catalog := catalog;
      this.registration := registration;
      recipes := [];
      this.server := server;
      new;
      registration.RegisterPlugin(plugin);
    }

    method AddRecipe(r: ItemRecipe, register: bool := false) returns (o: Outcome)
      requires Valid()
      modifies this
      ensures Step(State(), o) == Add(ServerConverter(catalog, Namespace()), old(State()), r, register)
    {
      recipes := recipes + [r];
      if register {
        var n := ServerConverter(catalog, registration.plugin.value)(r);
        if n.Err? {
          return Threw(n.error);
        }
        server := server[n.value.key := n.value];
      }
      o := Done;
    }

    method RemoveRecipe(r: ItemRecipe)
      requires Valid()
      modifies this
      ensures State() == Remove(Namespace(), old(State()), r)
    {
      var key := KeyOf(registration.plugin.value, r);
      server := server - {key};
      recipes := RemoveFirst(recipes, r);
    }

    method UnregisterRecipes()
      requires Valid()
      modifies this
      ensures State() == Unregister(Namespace(), old(State()))
    {
      var namespace := registration.plugin.value;
      var i := 0;
      while i < |recipes|
        invariant 0 <= i <= |recipes| && recipes == old(recipes)
        invariant server == old(server) - KeysOf(namespace, recipes[..i])
      {
        assert KeysOf(namespace, recipes[..i + 1]) == KeysOf(namespace, recipes[..i]) + {KeyOf(namespace, recipes[i])} by {
          assert recipes[..i + 1] == recipes[..i] + [recipes[i]];
        }
        server := server - {KeyOf(namespace, recipes[i])};
        i := i + 1;
      }
      assert recipes[..i] == recipes;
    }

    /** The body registerRecipes hands to the scheduler. */
    method RegisterRecipes() returns (o: Outcome)
      requires Valid()
      modifies this
      ensures recipes == old(recipes)
      ensures (server, o) == RegisterEach(ServerConverter(catalog, Namespace()), old(server), recipes)
    {
      var namespace := registration.plugin.value;
      var convert := ServerConverter(catalog, namespace);
      var i := 0;
      while i < |recipes|
        invariant 0 <= i <= |recipes| && recipes == old(recipes)
        invariant RegisterEach(convert, old(server), recipes) == RegisterEach(convert, server, recipes[i..])
      {
        assert recipes[i..][0] == recipes[i] && recipes[i..][1..] == recipes[i + 1..];
        var n := convert(recipes[i]);
        if n.Err? {
          return Threw(n.error);
        }
        server := server[n.value.key := n.value];
        i := i + 1;
      }
      o := Done;
    }

    /** getRecipes: the list itself. */
    function GetRecipes(): (rs: seq<ItemRecipe>)
      reads this
      ensures rs == State().recipes
    {
      recipes
    }

    method LoadRecipe(f: RecipeFile) returns (o: Outcome)
      requires Valid()
      modifies this
      ensures Step(State(), o) == LoadOne(FileLoader(catalog), ServerConverter(catalog, Namespace()), old(State()), f)
    {
      var r := FileLoader(catalog)(f);
      if r.Err? {
        return Threw(r.error);
      }
      o := AddRecipe(r.value, true);
    }

    /** addConfiguredRecipes over the entries the walk of the recipes folder yields, the folder first. */
    method AddConfiguredRecipes(walk: seq<RecipeFile>) returns (o: Outcome)
      requires Valid()
      modifies this
      ensures Step(State(), o) == AddConfigured(FileLoader(catalog), ServerConverter(catalog, Namespace()), old(State()), walk)
    {
      if walk == [] {
        return Done;
      }
      var files := walk[1..];
      ghost var read := FileLoader(catalog);
      ghost var convert := ServerConverter(catalog, Namespace());
      var i := 0;
      while i < |files|
        invariant 0 <= i <= |files| && Valid() && convert == ServerConverter(catalog, Namespace())
        invariant LoadEach(read, convert, old(State()), files) == LoadEach(read, convert, State(), files[i..])
      {
        assert files[i..][0] == files[i] && files[i..][1..] == files[i + 1..];
        if IsRecipeFile(files[i]) {
          o := LoadRecipe(files[i]);
          if o.Threw? {
            return;
          }
        }
        i := i + 1;
      }
      o := Done;
    }
  }
}
