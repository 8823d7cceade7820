/**
 * Prompt catalog loading and scenario discovery (Program.LoadPromptFolder,
 * Program.LoadScenarios, Program.FilterScenariosByType).
 *
 * A directory is given as its listing: a folder that does not exist is None,
 * an existing one is the sequence of its entries in the order the listing
 * returns them. Reading a file yields its whole content.
 */
module Discovery {
  import opened Results
  import opened Strings
  import opened Scenarios

  const MarkerClass := ".class"
  const MarkerFunction := ".function"
  const MarkerProject := ".project"
  const MarkerLanguage := ".language"
  const CodeInputFile := "code_input.txt"

  /** A regular file directly inside a folder: its name and its content. */
  datatype FileEntry = FileEntry(name: string, content: string)

  /** A scenario folder: its path and the files directly inside it. */
  datatype Folder = Folder(path: string, files: seq<FileEntry>)

  // ---------------------------------------------------------------------
  // Prompt catalog: a Dictionary<string, string> that is only ever added to,
  // held as its (name, body) pairs in enumeration order.

  /** The value a dictionary holds for name, or None when name is no key. */
  function Lookup(entries: seq<(string, string)>, name: string): (r: Option<string>)
    ensures r.None? <==> forall i :: 0 <= i < |entries| ==> entries[i].0 != name
  {
    if entries == [] then None
    else if entries[0].0 == name then Some(entries[0].1)
    else Lookup(entries[1..], name)
  }

  /** No key appears twice. */
  ghost predicate DistinctNames(entries: seq<(string, string)>) {
    forall i, j :: 0 <= i < j < |entries| ==> entries[i].0 != entries[j].0
  }

  /**
   * The indexer assignment `result[name] = body`: an existing key keeps its
   * place and gets the new value, a new key is added at the end.
   */
  function Put(entries: seq<(string, string)>, name: string, body: string): (r: seq<(string, string)>)
    ensures Lookup(r, name) == Some(body)
    ensures forall n :: n != name ==> Lookup(r, n) == Lookup(entries, n)
    ensures Lookup(entries, name).None? ==> r == entries + [(name, body)]
    ensures Lookup(entries, name).Some? ==>
              |r| == |entries| && forall i :: 0 <= i < |r| ==> r[i].0 == entries[i].0
  {
    if entries == [] then [(name, body)]
    else if entries[0].0 == name then [(name, body)] + entries[1..]
    else [entries[0]] + Put(entries[1..], name, body)
  }

  /** Put never makes a key appear twice. */
  lemma PutKeepsDistinct(entries: seq<(string, string)>, name: string, body: string)
    requires DistinctNames(entries)
    ensures DistinctNames(Put(entries, name, body))
  {
    var r := Put(entries, name, body);
    if Lookup(entries, name).None? {
      forall i, j | 0 <= i < j < |r|
        ensures r[i].0 != r[j].0
      {
        assert r[i] == entries[i];
        if j < |entries| {
          assert r[j] == entries[j];
        }
      }
    } else {
      forall i, j | 0 <= i < j < |r|
        ensures r[i].0 != r[j].0
      {
        assert r[i].0 == entries[i].0 && r[j].0 == entries[j].0;
      }
    }
  }

  /** The content of the last file in the listing that is called name. */
  function LastContent(files: seq<FileEntry>, name: string): (r: Option<string>)
    ensures r.None? <==> forall i :: 0 <= i < |files| ==> files[i].name != name
  {
    if files == [] then None
    else if files[|files| - 1].name == name then Some(files[|files| - 1].content)
    else LastContent(files[..|files| - 1], name)
  }

  ghost predicate DistinctFileNames(files: seq<FileEntry>) {
    forall i, j :: 0 <= i < j < |files| ==> files[i].name != files[j].name
  }

  /**
   * The catalog built from a listing, file by file. Every file name is a key
   * whose value is the content of the last file of that name; when the names
   * are distinct (as in one directory) the catalog is the listing itself.
   */
  function IndexFiles(files: seq<FileEntry>): (r: seq<(string, string)>)
    ensures DistinctNames(r)
  {
    if files == [] then []
    else
      var last := files[|files| - 1];
      PutKeepsDistinct(IndexFiles(files[..|files| - 1]), last.name, last.content);
      Put(IndexFiles(files[..|files| - 1]), last.name, last.content)
  }

  /** Every file name is a key whose value is the content of the last file of that name. */
  lemma {:induction false} IndexFilesLookup(files: seq<FileEntry>, name: string)
    ensures Lookup(IndexFiles(files), name) == LastContent(files, name)
  {
    if files != [] {
      IndexFilesLookup(files[..|files| - 1], name);
    }
  }

  /** A listing as (name, content) pairs, in listing order. */
  function Pairs(files: seq<FileEntry>): (r: seq<(string, string)>)
    ensures |r| == |files|
    ensures forall i :: 0 <= i < |files| ==> r[i] == (files[i].name, files[i].content)
  {
    if files == [] then []
    else Pairs(files[..|files| - 1]) + [(files[|files| - 1].name, files[|files| - 1].content)]
  }

  /** When the names are distinct, as in one directory, the catalog is the listing itself, in order. */
  lemma {:induction false} IndexDistinctListing(files: seq<FileEntry>)
    requires DistinctFileNames(files)
    ensures IndexFiles(files) == Pairs(files)
  {
    if files != [] {
      var before := files[..|files| - 1];
      var last := files[|files| - 1];
      assert DistinctFileNames(before);
      IndexDistinctListing(before);
      assert forall i :: 0 <= i < |before| ==> Pairs(before)[i].0 != last.name;
    }
  }

  /** What LoadPromptFolder returns for a folder listing. */
  function PromptsIn(folder: Option<seq<FileEntry>>): seq<(string, string)> {
    match folder
    case None => []
    case Some(files) => IndexFiles(files)
  }

  /** Program.LoadPromptFolder: a missing folder gives no prompts. */
  method LoadPromptFolder(folder: Option<seq<FileEntry>>) returns (prompts: seq<(string, string)>)
    ensures prompts == PromptsIn(folder)
    ensures folder.None? ==> prompts == []
    ensures folder.Some? ==> forall name :: Lookup(prompts, name) == LastContent(folder.value, name)
  {
    prompts := [];
    if folder.None? {
      return;
    }
    var files := folder.value;
    for i := 0 to |files|
      invariant prompts == IndexFiles(files[..i])
    {
      ghost var next := files[..i + 1];
      assert next[..i] == files[..i] && next[i] == files[i];
      prompts := Put(prompts, files[i].name, files[i].content);
      assert prompts == IndexFiles(next);
    }
    assert files[..|files|] == files;
    forall name
      ensures Lookup(prompts, name) == LastContent(files, name)
    {
      IndexFilesLookup(files, name);
    }
  }

  // ---------------------------------------------------------------------
  // Scenario discovery

  /** The type a marker file name stands for, compared ignoring case; Unknown for other names. */
  function MarkerType(name: string): (r: ScenarioType)
    ensures r == Class <==> EqualsIgnoreCase(name, MarkerClass)
    ensures r == Function <==> EqualsIgnoreCase(name, MarkerFunction)
    ensures r == Project <==> EqualsIgnoreCase(name, MarkerProject)
  {
    if EqualsIgnoreCase(name, MarkerClass) then Class
    else if EqualsIgnoreCase(name, MarkerFunction) then Function
    else if EqualsIgnoreCase(name, MarkerProject) then Project
    else Unknown
  }

  /** What scanning a folder has found so far: its type, language hint and input. */
  datatype Findings = Findings(kind: ScenarioType, language: string, input: string)

  const NothingFound := Findings(Unknown, "", "")

  /**
   * One turn of the scan loop: the first matching name in the else-if chain
   * decides, so a file changes at most one of the findings.
   */
  function ScanFile(found: Findings, file: FileEntry): (r: Findings)
    ensures r.kind != found.kind ==>
              r.kind == MarkerType(file.name) && r.language == found.language && r.input == found.input
    ensures r.language != found.language ==>
              EqualsIgnoreCase(file.name, MarkerLanguage) && r.language == Trim(file.content)
              && r.kind == found.kind && r.input == found.input
    ensures r.input != found.input ==>
              EqualsIgnoreCase(file.name, CodeInputFile) && r.input == file.content
              && r.kind == found.kind && r.language == found.language
  {
    if MarkerType(file.name) != Unknown then found.(kind := MarkerType(file.name))
    else if EqualsIgnoreCase(file.name, MarkerLanguage) then found.(language := Trim(file.content))
    else if EqualsIgnoreCase(file.name, CodeInputFile) then found.(input := file.content)
    else found
  }

  /** The findings after scanning the files of a folder in listing order. */
  function Scan(files: seq<FileEntry>): Findings {
    if files == [] then NothingFound
    else ScanFile(Scan(files[..|files| - 1]), files[|files| - 1])
  }

  /** files[j] is a marker file and no marker file comes after it. */
  ghost predicate LastMarkerAt(files: seq<FileEntry>, j: int) {
    && 0 <= j < |files|
    && MarkerType(files[j].name) != Unknown
    && forall k :: j < k < |files| ==> MarkerType(files[k].name) == Unknown
  }

  /** files[j] is called name (ignoring case) and no later file is. */
  ghost predicate LastNamedAt(files: seq<FileEntry>, name: string, j: int) {
    && 0 <= j < |files|
    && EqualsIgnoreCase(files[j].name, name)
    && forall k :: j < k < |files| ==> !EqualsIgnoreCase(files[k].name, name)
  }

  /** Proof step for ScanKind: only a marker file changes the type. */
  lemma ScanFileKind(found: Findings, file: FileEntry)
    ensures ScanFile(found, file).kind == if MarkerType(file.name) != Unknown then MarkerType(file.name) else found.kind
  {
  }

  /** The type is that of the last marker file in the listing, Unknown when there is none. */
  lemma {:induction false} ScanKind(files: seq<FileEntry>)
    ensures (forall k :: 0 <= k < |files| ==> MarkerType(files[k].name) == Unknown) ==> Scan(files).kind == Unknown
    ensures forall j :: LastMarkerAt(files, j) ==> Scan(files).kind == MarkerType(files[j].name)
  {
    if files != [] {
      var n := |files| - 1;
      var init := files[..n];
      ScanKind(init);
      ScanFileKind(Scan(init), files[n]);
      assert files == init + [files[n]];
      if MarkerType(files[n].name) == Unknown {
        assert Scan(files).kind == Scan(init).kind;
        forall j | LastMarkerAt(files, j)
          ensures Scan(files).kind == MarkerType(files[j].name)
        {
          assert j < n;
          assert LastMarkerAt(init, j);
        }
      } else {
        forall j | LastMarkerAt(files, j)
          ensures j == n
        {
        }
      }
    }
  }

  /** The language hint is the trimmed content of the last `.language` file, "" when there is none. */
  lemma {:induction false} ScanLanguage(files: seq<FileEntry>)
    ensures (forall k :: 0 <= k < |files| ==> !EqualsIgnoreCase(files[k].name, MarkerLanguage)) ==>
              Scan(files).language == ""
    ensures forall j :: LastNamedAt(files, MarkerLanguage, j) ==> Scan(files).language == Trim(files[j].content)
  {
    if files != [] {
      var n := |files| - 1;
      var init := files[..n];
      ScanLanguage(init);
      MarkersAreDistinct(files[n].name);
      if !EqualsIgnoreCase(files[n].name, MarkerLanguage) {
        assert Scan(files).language == Scan(init).language;
        forall j | LastNamedAt(files, MarkerLanguage, j)
          ensures Scan(files).language == Trim(files[j].content)
        {
          assert j < n;
          assert LastNamedAt(init, MarkerLanguage, j);
        }
      } else {
        forall j | LastNamedAt(files, MarkerLanguage, j)
          ensures j == n
        {
        }
      }
    }
  }

  /** The input is the verbatim content of the last `code_input.txt`, "" when there is none. */
  lemma {:induction false} ScanInput(files: seq<FileEntry>)
    ensures (forall k :: 0 <= k < |files| ==> !EqualsIgnoreCase(files[k].name, CodeInputFile)) ==>
              Scan(files).input == ""
    ensures forall j :: LastNamedAt(files, CodeInputFile, j) ==> Scan(files).input == files[j].content
  {
    if files != [] {
      var n := |files| - 1;
      var init := files[..n];
      ScanInput(init);
      MarkersAreDistinct(files[n].name);
      if !EqualsIgnoreCase(files[n].name, CodeInputFile) {
        assert Scan(files).input == Scan(init).input;
        forall j | LastNamedAt(files, CodeInputFile, j)
          ensures Scan(files).input == files[j].content
        {
          assert j < n;
          assert LastNamedAt(init, CodeInputFile, j);
        }
      } else {
        forall j | LastNamedAt(files, CodeInputFile, j)
          ensures j == n
        {
        }
      }
    }
  }

  /** No file name matches two of the names the scan looks for. */
  lemma MarkersAreDistinct(name: string)
    ensures EqualsIgnoreCase(name, MarkerLanguage) ==> MarkerType(name) == Unknown && !EqualsIgnoreCase(name, CodeInputFile)
    ensures EqualsIgnoreCase(name, CodeInputFile) ==> MarkerType(name) == Unknown
  {
    if EqualsIgnoreCase(name, MarkerLanguage) {
      assert ToUpperAscii(name[1]) == ToUpperAscii(MarkerLanguage[1]);
      assert MarkerLanguage[1] == 'l';
    }
    if EqualsIgnoreCase(name, CodeInputFile) {
      assert ToUpperAscii(name[0]) == ToUpperAscii(CodeInputFile[0]);
      assert CodeInputFile[0] == 'c';
    }
  }

  /** The scenario a folder yields: None when it carries no type marker. */
  function ScenarioOf(folder: Folder): (r: Option<Scenario>)
    ensures r.Some? ==> r.value.kind != Unknown && r.value.directoryPath == folder.path
  {
    var found := Scan(folder.files);
    if found.kind == Unknown then None
    else Some(Scenario(folder.path, found.input, found.language, found.kind))
  }

  /** The scenarios of a listing of folders, in listing order. */
  function Discovered(folders: seq<Folder>): (r: seq<Scenario>)
    ensures |r| <= |folders|
    ensures forall i :: 0 <= i < |r| ==> r[i].kind != Unknown
  {
    if folders == [] then []
    else
      var last := folders[|folders| - 1];
      Discovered(folders[..|folders| - 1]) +
        (match ScenarioOf(last) case None => [] case Some(s) => [s])
  }

  /** Discovery works folder by folder: the result for a listing is the results of its parts, in order. */
  lemma {:induction false} DiscoveredAppend(a: seq<Folder>, b: seq<Folder>)
    ensures Discovered(a + b) == Discovered(a) + Discovered(b)
  {
    if b == [] {
      assert a + b == a;
    } else {
      var n := |b| - 1;
      DiscoveredAppend(a, b[..n]);
      assert (a + b)[..|a + b| - 1] == a + b[..n];
      assert (a + b)[|a + b| - 1] == b[n];
    }
  }

  /** A single folder yields a scenario exactly when some file in it is a type marker. */
  lemma DiscoveredSingle(folder: Folder)
    ensures Discovered([folder]) == [] <==>
              forall k :: 0 <= k < |folder.files| ==> MarkerType(folder.files[k].name) == Unknown
  {
    assert [folder][..0] == [];
    ScanKind(folder.files);
    var files := folder.files;
    if exists k :: 0 <= k < |files| && MarkerType(files[k].name) != Unknown {
      var j := LastMarkerIndex(files);
      assert LastMarkerAt(files, j);
    }
  }

  /** The index of the last marker file of a listing that has one. */
  function LastMarkerIndex(files: seq<FileEntry>): (j: nat)
    requires exists k :: 0 <= k < |files| && MarkerType(files[k].name) != Unknown
    ensures LastMarkerAt(files, j)
  {
    var n := |files| - 1;
    if MarkerType(files[n].name) != Unknown then n
    else
      assert exists k :: 0 <= k < n && MarkerType(files[..n][k].name) != Unknown;
      var j := LastMarkerIndex(files[..n]);
      j
  }

  /** What LoadScenarios returns for the scenarios root. */
  function ScenariosIn(root: Option<seq<Folder>>): seq<Scenario> {
    match root
    case None => []
    case Some(folders) => Discovered(folders)
  }

  /** Program.LoadScenarios: a missing root gives no scenarios. */
  method LoadScenarios(root: Option<seq<Folder>>) returns (scenarios: seq<Scenario>)
    ensures scenarios == ScenariosIn(root)
  {
    scenarios := [];
    if root.None? {
      return;
    }
    var folders := root.value;
    for d := 0 to |folders|
      invariant scenarios == Discovered(folders[..d])
    {
      var dir := folders[d];
      var kind := Unknown;
      var language := "";
      var input := "";
      var files := dir.files;
      for i := 0 to |files|
        invariant Findings(kind, language, input) == Scan(files[..i])
      {
        var file := files[i];
        if EqualsIgnoreCase(file.name, MarkerClass) {
          kind := Class;
        } else if EqualsIgnoreCase(file.name, MarkerFunction) {
          kind := Function;
        } else if EqualsIgnoreCase(file.name, MarkerProject) {
          kind := Project;
        } else if EqualsIgnoreCase(file.name, MarkerLanguage) {
          language := Trim(file.content);
        } else if EqualsIgnoreCase(file.name, CodeInputFile) {
          input := file.content;
        }
        assert files[..i + 1][..i] == files[..i];
      }
      assert files[..|files|] == files;
      assert folders[..d + 1][..d] == folders[..d];
      if kind == Unknown {
        continue;
      }
      scenarios := scenarios + [Scenario(dir.path, input, language, kind)];
    }
    assert folders[..|folders|] == folders;
  }

  // ---------------------------------------------------------------------
  // Filtering by type

  /** The scenarios of one type, in their original order. */
  function OfType(scenarios: seq<Scenario>, kind: ScenarioType): (r: seq<Scenario>)
    ensures |r| <= |scenarios|
    ensures forall i :: 0 <= i < |r| ==> r[i].kind == kind
  {
    if scenarios == [] then []
    else
      var last := scenarios[|scenarios| - 1];
      OfType(scenarios[..|scenarios| - 1], kind) + (if last.kind == kind then [last] else [])
  }

  /** Filtering keeps order: the filtered parts of a list follow one another. */
  lemma {:induction false} OfTypeAppend(a: seq<Scenario>, b: seq<Scenario>, kind: ScenarioType)
    ensures OfType(a + b, kind) == OfType(a, kind) + OfType(b, kind)
  {
    if b == [] {
      assert a + b == a;
    } else {
      var n := |b| - 1;
      OfTypeAppend(a, b[..n], kind);
      assert (a + b)[..|a + b| - 1] == a + b[..n];
      assert (a + b)[|a + b| - 1] == b[n];
    }
  }

  /** Filtering drops nothing of the requested type: it keeps every copy of every such scenario. */
  lemma {:induction false} OfTypeCount(scenarios: seq<Scenario>, kind: ScenarioType, s: Scenario)
    ensures multiset(OfType(scenarios, kind))[s] == if s.kind == kind then multiset(scenarios)[s] else 0
  {
    if scenarios != [] {
      var n := |scenarios| - 1;
      OfTypeCount(scenarios[..n], kind, s);
      assert scenarios == scenarios[..n] + [scenarios[n]];
    }
  }

  /** Without Unknown scenarios, the three filters together hold every scenario exactly once. */
  lemma OfTypePartition(scenarios: seq<Scenario>)
    requires forall i :: 0 <= i < |scenarios| ==> scenarios[i].kind != Unknown
    ensures multiset(OfType(scenarios, Function)) + multiset(OfType(scenarios, Class)) +
            multiset(OfType(scenarios, Project)) == multiset(scenarios)
  {
    forall s {
      PartitionAt(scenarios, s);
    }
  }

  lemma PartitionAt(scenarios: seq<Scenario>, s: Scenario)
    requires forall i :: 0 <= i < |scenarios| ==> scenarios[i].kind != Unknown
    ensures (multiset(OfType(scenarios, Function)) + multiset(OfType(scenarios, Class)) +
             multiset(OfType(scenarios, Project)))[s] == multiset(scenarios)[s]
  {
    OfTypeCount(scenarios, Function, s);
    OfTypeCount(scenarios, Class, s);
    OfTypeCount(scenarios, Project, s);
    if s in multiset(scenarios) {
      var i :| 0 <= i < |scenarios| && scenarios[i] == s;
    }
  }

  /** Program.FilterScenariosByType. */
  method FilterScenariosByType(scenarios: seq<Scenario>, kind: ScenarioType) returns (list: seq<Scenario>)
    ensures list == OfType(scenarios, kind)
  {
    list := [];
    for i := 0 to |scenarios|
      invariant list == OfType(scenarios[..i], kind)
    {
      assert scenarios[..i + 1][..i] == scenarios[..i];
      if scenarios[i].kind == kind {
        list := list + [scenarios[i]];
      }
    }
    assert scenarios[..|scenarios|] == scenarios;
  }
}
