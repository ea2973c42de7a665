/**
 * RecipeLoader: gathers recipe files from folders and single files of the
 * plugin's data folder, extracting the jar's defaults into a folder that
 * does not exist yet, and hands the recipes to RecipesAPI highest priority
 * first. The data folder is a list of entries in the order a walk visits
 * them; the jar is the list of its entries.
 */
module Loader {
  import opened Wrappers
  import opened JavaStrings
  import opened Yaml
  import opened ItemRecipes
  import opened RecipesApi
  import opened PrioritySort

  /** What a path of the data folder holds. */
  datatype Node = Directory | RegularFile(config: Config)

  /** An entry of the data folder, by its path relative to the folder. */
  datatype Entry = Entry(path: string, node: Node)

  /** An entry of the plugin's jar: its name and the YAML it holds. */
  datatype JarEntry = JarEntry(name: string, config: Config)

  // ------------------------------------------------------------------- paths

  /** new File(dataFolder, path): trailing separators are dropped. */
  function FilePath(path: string): (p: string)
    ensures |p| <= |path| && p == path[..|p|]
    ensures p == [] || p[|p| - 1] != '/'
    ensures forall k :: |p| <= k < |path| ==> path[k] == '/'
    decreases |path|
  {
    if path != [] && path[|path| - 1] == '/' then FilePath(path[..|path| - 1]) else path
  }

  /** File.getName(): what follows the last separator. */
  function FileName(path: string): (n: string)
    ensures '/' !in n && |n| <= |path|
    ensures n == path[|path| - |n|..]
    ensures |n| == |path| || path[|path| - |n| - 1] == '/'
    decreases |path|
  {
    if path == [] || path[|path| - 1] == '/' then [] else FileName(path[..|path| - 1]) + [path[|path| - 1]]
  }

  /** File.getParentFile(): what precedes the last separator; "" stands for the data folder itself. */
  function Parent(path: string): (p: string)
    ensures |p| < |path| || p == []
    decreases |path|
  {
    if path == [] then []
    else if path[|path| - 1] == '/' then path[..|path| - 1]
    else Parent(path[..|path| - 1])
  }

  /** The path is the folder or lies below it. */
  predicate Under(path: string, folder: string) {
    path == folder || StartsWith(path, folder + "/")
  }

  // -------------------------------------------------------------- data folder

  /** The node at a path: the first entry listed for it. */
  function Find(entries: seq<Entry>, path: string): (n: Option<Node>)
    ensures n.Some? <==> exists k :: 0 <= k < |entries| && entries[k].path == path
    decreases |entries|
  {
    if entries == [] then None
    else if entries[0].path == path then Some(entries[0].node)
    else
      var rest := Find(entries[1..], path);
      assert forall k :: 1 <= k < |entries| ==> entries[k] == entries[1..][k - 1];
      rest
  }

  /** Appending an entry leaves every path already present as it was. */
  lemma {:induction false} FindAppend(entries: seq<Entry>, e: Entry, path: string)
    ensures Find(entries + [e], path) == if Find(entries, path).Some? then Find(entries, path)
                                         else if e.path == path then Some(e.node) else None
    decreases |entries|
  {
    if entries != [] {
      assert (entries + [e])[1..] == entries[1..] + [e];
      FindAppend(entries[1..], e, path);
    }
  }

  function ConfigOf(n: Option<Node>): Config {
    if n.Some? && n.value.RegularFile? then n.value.config else map[]
  }

  /** Files.walk(folder): the entries under the folder, in listing order. */
  function Walk(entries: seq<Entry>, folder: string): (w: seq<RecipeFile>)
    ensures |w| <= |entries|
    decreases |entries|
  {
    if entries == [] then []
    else
      var rest := Walk(entries[1..], folder);
      var e := entries[0];
      if Under(e.path, folder) then [RecipeFile(FileName(e.path), e.node.RegularFile?, ConfigOf(Some(e.node)))] + rest
      else rest
  }

  /** The file at a path as loadConfiguration reads it: a missing file reads as empty YAML. */
  function FileAt(entries: seq<Entry>, path: string): RecipeFile {
    var n := Find(entries, path);
    RecipeFile(FileName(path), n.Some? && n.value.RegularFile?, ConfigOf(n))
  }

  /** addFile's three checks: the path exists, is a regular file, and its name ends in ".yml". */
  predicate IsYamlFile(entries: seq<Entry>, path: string) {
    Find(entries, path).Some? && Find(entries, path).value.RegularFile? && EndsWith(FileName(path), ".yml")
  }

  // --------------------------------------------------------- jar extraction

  /** extractDefaultsFromJar's prefix: the path with a trailing "/". */
  function JarPrefix(jarPath: string): (p: string)
    ensures EndsWith(p, "/") && StartsWith(p, jarPath)
    ensures EndsWith(jarPath, "/") ==> p == jarPath
    ensures |p| <= |jarPath| + 1
  {
    if EndsWith(jarPath, "/") then jarPath else jarPath + "/"
  }

  /** A jar entry is extracted when it lies under the prefix and is a YAML file. */
  predicate Extractable(prefix: string, e: JarEntry) {
    StartsWith(e.name, prefix) && EndsWith(e.name, ".yml")
  }

  /**
   * One jar entry: its parent directory is created when missing (and the
   * entry skipped when that fails), then the file is saved unless a file is
   * already there.
   */
  function ExtractOne(entries: seq<Entry>, writable: bool, prefix: string, e: JarEntry): seq<Entry> {
    if !Extractable(prefix, e) then entries
    else
      var parent := Parent(e.name);
      var needsParent := parent != "" && Find(entries, parent).None?;
      if needsParent && !writable then entries
      else
        var withParent := if needsParent then entries + [Entry(parent, Directory)] else entries;
        if Find(withParent, e.name).Some? then withParent
        else withParent + [Entry(e.name, RegularFile(e.config))]
  }

  /** The loop over the jar's entries. */
  function Extract(entries: seq<Entry>, writable: bool, prefix: string, jar: seq<JarEntry>): seq<Entry>
    decreases |jar|
  {
    if jar == [] then entries else Extract(ExtractOne(entries, writable, prefix, jar[0]), writable, prefix, jar[1..])
  }

  /** Extraction only appends: nothing already in the data folder is overwritten. */
  lemma {:induction false} ExtractKeepsExisting(entries: seq<Entry>, writable: bool, prefix: string, jar: seq<JarEntry>,
                                                path: string)
    requires Find(entries, path).Some?
    ensures Find(Extract(entries, writable, prefix, jar), path) == Find(entries, path)
    decreases |jar|
  {
    if jar != [] {
      var e := jar[0];
      var next := ExtractOne(entries, writable, prefix, e);
      assert Find(next, path) == Find(entries, path) by {
        if Extractable(prefix, e) {
          var parent := Parent(e.name);
          var needsParent := parent != "" && Find(entries, parent).None?;
          if !(needsParent && !writable) {
            var withParent := if needsParent then entries + [Entry(parent, Directory)] else entries;
            if needsParent {
              FindAppend(entries, Entry(parent, Directory), path);
            }
            if Find(withParent, e.name).None? {
              FindAppend(withParent, Entry(e.name, RegularFile(e.config)), path);
            }
          }
        }
      }
      ExtractKeepsExisting(next, writable, prefix, jar[1..], path);
    }
  }

  /** Every file extraction adds comes from a jar entry under the prefix, with that entry's YAML. */
  lemma {:induction false} ExtractAddsOnlyDefaults(entries: seq<Entry>, writable: bool, prefix: string, jar: seq<JarEntry>,
                                                   path: string, config: Config)
    requires Find(entries, path).None?
    requires Find(Extract(entries, writable, prefix, jar), path) == Some(RegularFile(config))
    ensures exists k :: 0 <= k < |jar| && jar[k].name == path && jar[k].config == config && Extractable(prefix, jar[k])
    decreases |jar|
  {
    var e := jar[0];
    var next := ExtractOne(entries, writable, prefix, e);
    if Find(next, path).Some? {
      ExtractKeepsExisting(next, writable, prefix, jar[1..], path);
      var parent := Parent(e.name);
      var needsParent := parent != "" && Find(entries, parent).None?;
      var withParent := if needsParent then entries + [Entry(parent, Directory)] else entries;
      if needsParent {
        FindAppend(entries, Entry(parent, Directory), path);
      }
      FindAppend(withParent, Entry(e.name, RegularFile(e.config)), path);
      assert jar[0].name == path && jar[0].config == config && Extractable(prefix, jar[0]);
    } else {
      ExtractAddsOnlyDefaults(next, writable, prefix, jar[1..], path, config);
      var k :| 0 <= k < |jar[1..]| && jar[1..][k].name == path && jar[1..][k].config == config && Extractable(prefix, jar[1..][k]);
      assert jar[k + 1] == jar[1..][k];
    }
  }

  /**
   * Every YAML entry under the prefix that the data folder lacks is
   * extracted, provided its parent directory exists or can be created.
   */
  lemma {:induction false} ExtractAddsMissing(entries: seq<Entry>, writable: bool, prefix: string, jar: seq<JarEntry>,
                                              k: nat)
    requires k < |jar| && Extractable(prefix, jar[k]) && Find(entries, jar[k].name).None?
    requires writable || Parent(jar[k].name) == "" || Find(entries, Parent(jar[k].name)).Some?
    ensures Find(Extract(entries, writable, prefix, jar), jar[k].name).Some?
    decreases k
  {
    var e := jar[0];
    var next := ExtractOne(entries, writable, prefix, e);
    assert Extract(entries, writable, prefix, [e]) == next;
    var path := jar[k].name;
    if k == 0 {
      var parent := Parent(e.name);
      var needsParent := parent != "" && Find(entries, parent).None?;
      var withParent := if needsParent then entries + [Entry(parent, Directory)] else entries;
      if Find(withParent, e.name).None? {
        FindAppend(withParent, Entry(e.name, RegularFile(e.config)), path);
      }
      assert Find(next, path).Some?;
      ExtractKeepsExisting(next, writable, prefix, jar[1..], path);
    } else if Find(next, path).Some? {
      ExtractKeepsExisting(next, writable, prefix, jar[1..], path);
    } else {
      assert jar[1..][k - 1] == jar[k];
      if Find(entries, Parent(path)).Some? {
        ExtractKeepsExisting(entries, writable, prefix, [e], Parent(path));
      }
      ExtractAddsMissing(next, writable, prefix, jar[1..], k - 1);
    }
  }

  // ------------------------------------------------------------------ loading

  /** RecipeLoader.loadRecipe: a file that fails to build is reported and skipped. */
  function Collect(read: Reader, files: seq<RecipeFile>): (rs: seq<ItemRecipe>)
    ensures |rs| <= |files|
    decreases |files|
  {
    if files == [] then []
    else
      var rest := Collect(read, files[1..]);
      match read(files[0])
      case Ok(r) => [r] + rest
      case Err(_) => rest
  }

  /** Every recipe collected is what some file of the list builds into. */
  lemma {:induction false} CollectOnlyBuilt(read: Reader, files: seq<RecipeFile>, x: ItemRecipe)
    requires x in Collect(read, files)
    ensures exists k :: 0 <= k < |files| && read(files[k]) == Ok(x)
    decreases |files|
  {
    if read(files[0]) != Ok(x) {
      CollectOnlyBuilt(read, files[1..], x);
      var k :| 0 <= k < |files[1..]| && read(files[1..][k]) == Ok(x);
      assert files[k + 1] == files[1..][k];
    }
  }

  /** Collecting two lists one after the other is collecting their concatenation. */
  lemma {:induction false} CollectAppend(read: Reader, a: seq<RecipeFile>, b: seq<RecipeFile>)
    ensures Collect(read, a + b) == Collect(read, a) + Collect(read, b)
    decreases |a|
  {
    if a != [] {
      assert (a + b)[0] == a[0] && (a + b)[1..] == a[1..] + b;
      CollectAppend(read, a[1..], b);
    } else {
      assert a + b == b;
    }
  }

  /** Every file that builds contributes its recipe. */
  lemma {:induction false} CollectAllThatBuild(read: Reader, files: seq<RecipeFile>)
    requires forall k :: 0 <= k < |files| ==> read(files[k]).Ok?
    ensures |Collect(read, files)| == |files|
    ensures forall k :: 0 <= k < |files| ==> Collect(read, files)[k] == read(files[k]).value
    decreases |files|
  {
    if files != [] {
      assert forall k :: 0 <= k < |files[1..]| ==> files[1..][k] == files[k + 1];
      CollectAllThatBuild(read, files[1..]);
    }
  }

  /** The walk's regular files named *.yml. */
  function RecipeFiles(walk: seq<RecipeFile>): (fs: seq<RecipeFile>)
    ensures forall f :: f in fs <==> f in walk && IsRecipeFile(f)
    decreases |walk|
  {
    if walk == [] then []
    else
      var rest := RecipeFiles(walk[1..]);
      assert forall f :: f in walk <==> f == walk[0] || f in walk[1..];
      if IsRecipeFile(walk[0]) then [walk[0]] + rest else rest
  }

  /** loadFromFolder: a folder that cannot be walked yields nothing. */
  function FromFolder(read: Reader, entries: seq<Entry>, folder: string): seq<ItemRecipe> {
    if Find(entries, folder).None? then [] else Collect(read, RecipeFiles(Walk(entries, folder)))
  }

  /** How one added folder is loaded. */
  type FolderReader = string -> seq<ItemRecipe>

  function FolderLoader(read: Reader, entries: seq<Entry>): FolderReader {
    folder => FromFolder(read, entries, folder)
  }

  /** The recipes of the folders, one folder after the other. */
  function FromFolders(load: FolderReader, folders: seq<string>): seq<ItemRecipe>
    decreases |folders|
  {
    if folders == [] then [] else load(folders[0]) + FromFolders(load, folders[1..])
  }

  lemma {:induction false} FromFoldersAppend(load: FolderReader, a: seq<string>, b: seq<string>)
    ensures FromFolders(load, a + b) == FromFolders(load, a) + FromFolders(load, b)
    decreases |a|
  {
    if a != [] {
      assert (a + b)[0] == a[0] && (a + b)[1..] == a[1..] + b;
      FromFoldersAppend(load, a[1..], b);
    } else {
      assert a + b == b;
    }
  }

  function FilesAt(entries: seq<Entry>, paths: seq<string>): (fs: seq<RecipeFile>)
    ensures |fs| == |paths|
    ensures forall k :: 0 <= k < |paths| ==> fs[k] == FileAt(entries, paths[k])
  {
    seq(|paths|, k requires 0 <= k < |paths| => FileAt(entries, paths[k]))
  }

  /** Everything load() gathers: the folders in the order added, then the single files. */
  function Gathered(read: Reader, entries: seq<Entry>, folders: seq<string>, files: seq<string>): seq<ItemRecipe> {
    FromFolders(FolderLoader(read, entries), folders) + Collect(read, FilesAt(entries, files))
  }

  /** A folder that is not in the data folder loads nothing. */
  lemma MissingFolderLoadsNothing(read: Reader, entries: seq<Entry>, folder: string)
    requires forall k :: 0 <= k < |entries| ==> entries[k].path != folder
    ensures FromFolder(read, entries, folder) == []
  {
  }

  /** A file outside every added folder and not added on its own is never loaded. */
  lemma {:induction false} WalkStaysInside(entries: seq<Entry>, folder: string, f: RecipeFile)
    requires f in Walk(entries, folder)
    ensures exists k :: 0 <= k < |entries| && Under(entries[k].path, folder) && FileName(entries[k].path) == f.name
    decreases |entries|
  {
    if !(Under(entries[0].path, folder) && f == Walk(entries, folder)[0]) {
      WalkStaysInside(entries[1..], folder, f);
      var k :| 0 <= k < |entries[1..]| && Under(entries[1..][k].path, folder) && FileName(entries[1..][k].path) == f.name;
      assert entries[k + 1] == entries[1..][k];
    }
  }

  // ------------------------------------------------------------ load loops

  /** loadRecipe(file, recipes): the recipe is appended when the file builds. */
  method LoadRecipeInto(read: Reader, f: RecipeFile, recipes: seq<ItemRecipe>) returns (result: seq<ItemRecipe>)
    ensures result == recipes + Collect(read, [f])
  {
    var r := read(f);
    result := recipes;
    if r.Ok? {
      result := result + [r.value];
    }
  }

  /** Loading a list of files one after the other, skipping those that fail. */
  method LoadFiles(read: Reader, fs: seq<RecipeFile>, recipes: seq<ItemRecipe>) returns (result: seq<ItemRecipe>)
    ensures result == recipes + Collect(read, fs)
  {
    result := recipes;
    var i := 0;
    while i < |fs|
      invariant 0 <= i <= |fs|
      invariant result == recipes + Collect(read, fs[..i])
    {
      result := LoadRecipeInto(read, fs[i], result);
      assert fs[..i + 1] == fs[..i] + [fs[i]];
      CollectAppend(read, fs[..i], [fs[i]]);
      i := i + 1;
    }
    assert fs[..i] == fs;
  }

  /** loadFromFolder(folder, recipes): the walk's *.yml files; a folder that cannot be walked adds nothing. */
  method LoadFromFolder(read: Reader, entries: seq<Entry>, folder: string, recipes: seq<ItemRecipe>)
    returns (result: seq<ItemRecipe>)
    ensures result == recipes + FromFolder(read, entries, folder)
  {
    if Find(entries, folder).None? {
      return recipes;
    }
    result := LoadFiles(read, RecipeFiles(Walk(entries, folder)), recipes);
  }

  /** The loops of load() that gather recipes, before sorting. */
  method GatherAll(read: Reader, entries: seq<Entry>, folders: seq<string>, files: seq<string>)
    returns (recipes: seq<ItemRecipe>)
    ensures recipes == Gathered(read, entries, folders, files)
  {
    recipes := [];
    var i := 0;
    while i < |folders|
      invariant 0 <= i <= |folders|
      invariant recipes == FromFolders(FolderLoader(read, entries), folders[..i])
    {
      recipes := LoadFromFolder(read, entries, folders[i], recipes);
      assert folders[..i + 1] == folders[..i] + [folders[i]];
      FromFoldersAppend(FolderLoader(read, entries), folders[..i], [folders[i]]);
      i := i + 1;
    }
    assert folders[..i] == folders;
    recipes := LoadFiles(read, FilesAt(entries, files), recipes);
  }

  // -------------------------------------------------------------------- class

  /** The plugin's data folder, which mkdirs and saveResource write to. */
  class DataFolder {
    var entries: seq<Entry>
    /** Whether directories can be created in it. */
    const writable: bool

    constructor (entries: seq<Entry>, writable: bool)
      ensures this.entries == entries && this.writable == writable
    {
      this.entries := entries;
      this.writable := writable;
    }

    /** mkdirs() on a path that does not exist yet. */
    method Mkdirs(path: string) returns (ok: bool)
      requires Find(entries, path).None?
      modifies this
      ensures ok == writable
      ensures entries == if writable then old(entries) + [Entry(path, Directory)] else old(entries)
    {
      ok := writable;
      if ok {
        entries := entries + [Entry(path, Directory)];
      }
    }
  }

  class RecipeLoader {
    const api: RecipesAPI
    const disk: DataFolder
    /** The jar's entries; None when the plugin's code source is unknown. */
    const jar: Option<seq<JarEntry>>
    var folders: seq<string>
    var files: seq<string>

    constructor (api: RecipesAPI, disk: DataFolder, jar: Option<seq<JarEntry>>)
      ensures this.api == api && this.disk == disk && this.jar == jar
      ensures folders == [] && files == []
    {
      this.api := api;
      this.disk := disk;
      this.jar := jar;
      folders := [];
      files := [];
    }

    /** extractDefaultsFromJar(jarPath). */
    method ExtractDefaults(jarPath: string)
      modifies disk
      ensures jar.None? ==> disk.entries == old(disk.entries)
      ensures jar.Some? ==> disk.entries == Extract(old(disk.entries), disk.writable, JarPrefix(jarPath), jar.value)
    {
      if jar.None? {
        return;
      }
      var prefix := JarPrefix(jarPath);
      var js := jar.value;
      var i := 0;
      while i < |js|
        invariant 0 <= i <= |js|
        invariant Extract(old(disk.entries), disk.writable, prefix, js) == Extract(disk.entries, disk.writable, prefix, js[i..])
      {
        assert js[i..][0] == js[i] && js[i..][1..] == js[i + 1..];
        var e := js[i];
        if Extractable(prefix, e) {
          var parent := Parent(e.name);
          var created := true;
          if parent != "" && Find(disk.entries, parent).None? {
            created := disk.Mkdirs(parent);
          }
          if created && Find(disk.entries, e.name).None? {
            disk.entries := disk.entries + [Entry(e.name, RegularFile(e.config))];
          }
        }
        i := i + 1;
      }
    }

    /**
     * addFolder: a folder that does not exist is created and filled with the
     * jar's defaults; the folder is kept when it is then a directory.
     */
    method AddFolder(path: string)
      modifies this, disk
      ensures files == old(files)
      ensures Find(old(disk.entries), FilePath(path)).Some? ==>
                disk.entries == old(disk.entries) &&
                folders == if Find(old(disk.entries), FilePath(path)) == Some(Directory)
                           then old(folders) + [FilePath(path)] else old(folders)
      ensures Find(old(disk.entries), FilePath(path)).None? && !disk.writable ==>
                disk.entries == old(disk.entries) && folders == old(folders)
      ensures Find(old(disk.entries), FilePath(path)).None? && disk.writable ==>
                folders == old(folders) + [FilePath(path)] &&
                disk.entries == (var created := old(disk.entries) + [Entry(FilePath(path), Directory)];
                                 if jar.None? then created else Extract(created, disk.writable, JarPrefix(path), jar.value))
    {
      var folder := FilePath(path);
      if Find(disk.entries, folder).None? {
        var ok := disk.Mkdirs(folder);
        if !ok {
          return;
        }
        FindAppend(old(disk.entries), Entry(folder, Directory), folder);
        ghost var created := disk.entries;
        ExtractDefaults(path);
        if jar.Some? {
          ExtractKeepsExisting(created, disk.writable, JarPrefix(path), jar.value, folder);
        }
      }
      if Find(disk.entries, folder) != Some(Directory) {
        return;
      }
      folders := folders + [folder];
    }

    /** addFile: the path is kept only when it names an existing regular file ending in ".yml". */
    method AddFile(path: string)
      modifies this
      ensures folders == old(folders)
      ensures IsYamlFile(disk.entries, FilePath(path)) ==> files == old(files) + [FilePath(path)]
      ensures !IsYamlFile(disk.entries, FilePath(path)) ==> files == old(files)
    {
      var file := FilePath(path);
      var node := Find(disk.entries, file);
      if node.None? {
        return;
      }
      if !node.value.RegularFile? {
        return;
      }
      if !EndsWith(FileName(file), ".yml") {
        return;
      }
      files := files + [file];
    }

    /**
     * load(): the gathered recipes, highest priority first, are added to the
     * API without being registered with the server; the count is returned.
     */
    method Load() returns (count: int)
      requires api.Valid()
      modifies api
      ensures api.Valid()
      ensures api.recipes == old(api.recipes) + SortByPriority(Gathered(FileLoader(api.catalog), disk.entries, folders, files))
      ensures api.server == old(api.server)
      ensures count == |Gathered(FileLoader(api.catalog), disk.entries, folders, files)|
    {
      var recipes := GatherAll(FileLoader(api.catalog), disk.entries, folders, files);
      var sorted := SortByPriority(recipes);
      SortKeepsLength(recipes);
      AddAll(sorted);
      count := |sorted|;
    }

    /** The loop of load() that adds each recipe without registering it. */
    method AddAll(rs: seq<ItemRecipe>)
      requires api.Valid()
      modifies api
      ensures api.Valid()
      ensures api.recipes == old(api.recipes) + rs
      ensures api.server == old(api.server)
    {
      var i := 0;
      while i < |rs|
        invariant 0 <= i <= |rs| && api.Valid()
        invariant api.recipes == old(api.recipes) + rs[..i]
        invariant api.server == old(api.server)
      {
        var o := api.AddRecipe(rs[i]);
        assert rs[..i + 1] == rs[..i] + [rs[i]];
        i := i + 1;
      }
      assert rs[..i] == rs;
    }

    /**
     * reload(): the listed recipes' keys leave the server, but the list is
     * not cleared, so the reloaded recipes are appended after the old ones.
     */
    method Reload() returns (count: int)
      requires api.Valid()
      modifies api
      ensures api.Valid()
      ensures api.recipes == old(api.recipes) + SortByPriority(Gathered(FileLoader(api.catalog), disk.entries, folders, files))
      ensures api.server == Unregister(api.Namespace(), old(api.State())).server
      ensures count == |Gathered(FileLoader(api.catalog), disk.entries, folders, files)|
    {
      api.UnregisterRecipes();
      count := Load();
    }
  }
}
