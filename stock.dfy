/** The stock directory on disk (`stock/`): one text file `<product>.txt` per
    line-mode product and one directory `<product>/` per file-mode ("cookie")
    product. getActualStockCount (utils/database.js) counts units straight
    from here. */
module Stock {
  import opened Text

  /** An entry of a directory listing, in the order readdirSync returns it. */
  datatype Entry = File(name: string, content: string) | Folder(name: string, children: seq<Entry>)

  /** One loaded stock unit: its trimmed content and, in file mode, the name of
      the file it was read from. */
  datatype Unit = Unit(content: string, file: Option<string>)

  /** `readdirSync(dir).filter(f => statSync(f).isFile())` */
  function RegularFiles(entries: seq<Entry>): (r: seq<Entry>)
    ensures |r| <= |entries|
    ensures forall k :: 0 <= k < |r| ==> r[k].File? && r[k] in entries
    ensures forall e :: e in entries && e.File? ==> e in r
  {
    if entries == [] then []
    else if entries[0].File? then [entries[0]] + RegularFiles(entries[1..])
    else RegularFiles(entries[1..])
  }

  /** Names of the regular files of a listing. */
  function FileNames(entries: seq<Entry>): (r: seq<string>)
    ensures |r| == |RegularFiles(entries)|
  {
    if entries == [] then []
    else if entries[0].File? then [entries[0].name] + FileNames(entries[1..])
    else FileNames(entries[1..])
  }

  predicate Distinct(xs: seq<string>) {
    forall i, j :: 0 <= i < j < |xs| ==> xs[i] != xs[j]
  }

  /** getActualStockCount: the non-blank lines of `<product>.txt` in line mode,
      the regular files of `<product>/` in file mode, and 0 when the file or
      directory does not exist. */
  function ActualCount(lineFiles: map<string, string>, dirs: map<string, seq<Entry>>,
                       product: string, cookieMode: bool): nat
  {
    if cookieMode then
      if product in dirs then |RegularFiles(dirs[product])| else 0
    else
      if product in lineFiles then |Lines(lineFiles[product])| else 0
  }

  /** The units of a file-mode directory: each regular file, its content trimmed. */
  function FileUnits(files: seq<Entry>): (r: seq<Unit>)
    requires forall k :: 0 <= k < |files| ==> files[k].File?
    ensures |r| == |files|
    ensures forall k :: 0 <= k < |files| ==>
      r[k] == Unit(Trim(files[k].content), Some(files[k].name))
  {
    if files == [] then [] else [Unit(Trim(files[0].content), Some(files[0].name))] + FileUnits(files[1..])
  }

  /** The units of a line-mode file: each non-blank line, trimmed. */
  function LineUnits(texts: seq<string>): (r: seq<Unit>)
    ensures |r| == |texts|
    ensures forall k :: 0 <= k < |texts| ==> r[k] == Unit(texts[k], None)
  {
    if texts == [] then [] else [Unit(texts[0], None)] + LineUnits(texts[1..])
  }

  /** The contents of a sequence of units. */
  function Contents(units: seq<Unit>): (r: seq<string>)
    ensures |r| == |units|
    ensures forall k :: 0 <= k < |units| ==> r[k] == units[k].content
  {
    if units == [] then [] else [units[0].content] + Contents(units[1..])
  }

  /** The load step of a purchase pass (commands/purchase.js:86-115): exactly as
      many units as getActualStockCount reports, in file or line order. */
  function LoadUnits(lineFiles: map<string, string>, dirs: map<string, seq<Entry>>,
                     product: string, cookieMode: bool): (r: seq<Unit>)
    ensures |r| == ActualCount(lineFiles, dirs, product, cookieMode)
    ensures cookieMode ==> forall k :: 0 <= k < |r| ==> r[k].file.Some?
    ensures !cookieMode ==> forall k :: 0 <= k < |r| ==> r[k].file.None? && IsUnitText(r[k].content)
  {
    if cookieMode then
      if product in dirs then FileUnits(RegularFiles(dirs[product])) else []
    else if product in lineFiles then
      LoadedUnitsWellFormed(lineFiles[product]);
      LineUnits(TrimAll(Lines(lineFiles[product])))
    else []
  }

  /** Units are line-mode units: no file and well-formed text. */
  predicate LineModeUnits(units: seq<Unit>) {
    forall k :: 0 <= k < |units| ==> units[k].file.None? && IsUnitText(units[k].content)
  }

  /** Writing units back to a line file and loading it again gives them back. */
  lemma LineRoundTrip(lineFiles: map<string, string>, dirs: map<string, seq<Entry>>,
                      product: string, units: seq<Unit>)
    requires LineModeUnits(units)
    ensures LoadUnits(lineFiles[product := JoinLines(Contents(units))], dirs, product, false) == units
    ensures ActualCount(lineFiles[product := JoinLines(Contents(units))], dirs, product, false) == |units|
  {
    var texts := Contents(units);
    ReloadJoinLines(texts);
    var r := LoadUnits(lineFiles[product := JoinLines(texts)], dirs, product, false);
    assert |r| == |units|;
    forall k | 0 <= k < |units| ensures r[k] == units[k] {
    }
  }

  /** `fs.unlinkSync(<dir>/<name>)`: the file of that name leaves the listing. */
  function RemoveFile(entries: seq<Entry>, name: string): (r: seq<Entry>)
    ensures forall e :: e in r <==> e in entries && !(e.File? && e.name == name)
  {
    if entries == [] then []
    else if entries[0].File? && entries[0].name == name then RemoveFile(entries[1..], name)
    else [entries[0]] + RemoveFile(entries[1..], name)
  }

  /** `fs.copyFileSync(src, <dir>/<name>)`: overwrite the file of that name, or add it. */
  function PutFile(entries: seq<Entry>, name: string, content: string): (r: seq<Entry>)
  {
    if entries == [] then [File(name, content)]
    else if entries[0].File? && entries[0].name == name then [File(name, content)] + entries[1..]
    else [entries[0]] + PutFile(entries[1..], name, content)
  }

  /** Deleting an existing file of a listing with distinct file names lowers the
      file count by one; deleting a missing one changes nothing. */
  lemma {:induction false} RemoveFileCount(entries: seq<Entry>, name: string)
    requires Distinct(FileNames(entries))
    ensures name in FileNames(entries) ==> |RegularFiles(RemoveFile(entries, name))| == |RegularFiles(entries)| - 1
    ensures name !in FileNames(entries) ==> RemoveFile(entries, name) == entries
    decreases |entries|
  {
    if entries != [] {
      DistinctTail(FileNames(entries), entries[0].File?);
      FileNamesTail(entries);
      RemoveFileCount(entries[1..], name);
      if entries[0].File? && entries[0].name == name {
        assert FileNames(entries)[0] == name;
        assert name !in FileNames(entries[1..]);
      }
    }
  }

  lemma FileNamesTail(entries: seq<Entry>)
    requires entries != []
    ensures FileNames(entries) == (if entries[0].File? then [entries[0].name] else []) + FileNames(entries[1..])
  {
  }

  lemma DistinctTail(xs: seq<string>, drop: bool)
    requires Distinct(xs) && (drop ==> xs != [])
    ensures Distinct(if drop then xs[1..] else xs)
  {
  }

  /** Copying in a file whose name is new adds one file and keeps every existing
      file; copying onto an existing name keeps the count. */
  lemma {:induction false} PutFileCount(entries: seq<Entry>, name: string, content: string)
    ensures name !in FileNames(entries) ==>
      |RegularFiles(PutFile(entries, name, content))| == |RegularFiles(entries)| + 1
    ensures name in FileNames(entries) ==>
      |RegularFiles(PutFile(entries, name, content))| == |RegularFiles(entries)|
    ensures forall n :: n in FileNames(entries) ==> n in FileNames(PutFile(entries, name, content))
    ensures name in FileNames(PutFile(entries, name, content))
    decreases |entries|
  {
    if entries != [] {
      PutFileCount(entries[1..], name, content);
      FileNamesTail(entries);
      var r := PutFile(entries, name, content);
      if entries[0].File? && entries[0].name == name {
        assert r[1..] == entries[1..];
        FileNamesTail(r);
      } else {
        assert r[1..] == PutFile(entries[1..], name, content);
        FileNamesTail(r);
      }
    }
  }

  /** The stock directory. Only the stock files and product directories are
      modelled; `temp/` and `orders/` hold copies made for delivery. */
  class Disk {
    var lineFiles: map<string, string>
    var dirs: map<string, seq<Entry>>

    constructor (lineFiles0: map<string, string>, dirs0: map<string, seq<Entry>>)
      ensures lineFiles == lineFiles0 && dirs == dirs0
    {
      lineFiles := lineFiles0;
      dirs := dirs0;
    }

    /** getActualStockCount on the current disk. */
    function Count(product: string, cookieMode: bool): nat
      reads this
    {
      ActualCount(lineFiles, dirs, product, cookieMode)
    }

    /** `fs.writeFileSync(stock/<product>.txt, content)` */
    method WriteLineFile(product: string, content: string)
      modifies this`lineFiles
      ensures lineFiles == old(lineFiles)[product := content]
    {
      lineFiles := lineFiles[product := content];
    }

    /** `if (existsSync(file)) unlinkSync(file)` */
    method DeleteLineFile(product: string)
      modifies this`lineFiles
      ensures lineFiles == old(lineFiles) - {product}
      ensures Count(product, false) == 0
    {
      lineFiles := lineFiles - {product};
    }

    /** `if (!existsSync(dir)) mkdirSync(dir)`: an existing directory keeps its files. */
    method EnsureDir(product: string)
      modifies this`dirs
      ensures dirs == if product in old(dirs) then old(dirs) else old(dirs)[product := []]
    {
      if product !in dirs {
        dirs := dirs[product := []];
      }
    }

    /** `fs.rmSync(dir, { recursive: true, force: true })` */
    method RemoveDir(product: string)
      modifies this`dirs
      ensures dirs == old(dirs) - {product}
      ensures Count(product, true) == 0
    {
      dirs := dirs - {product};
    }

    /** `if (existsSync(path)) unlinkSync(path)` for a file of a product directory. */
    method Unlink(product: string, name: string)
      modifies this`dirs
      ensures dirs == if product in old(dirs) then old(dirs)[product := RemoveFile(old(dirs)[product], name)] else old(dirs)
    {
      if product in dirs {
        dirs := dirs[product := RemoveFile(dirs[product], name)];
      }
    }

    /** `fs.copyFileSync(src, stock/<product>/<name>)` into an existing directory. */
    method CopyIn(product: string, name: string, content: string)
      requires product in dirs
      modifies this`dirs
      ensures dirs == old(dirs)[product := PutFile(old(dirs)[product], name, content)]
    {
      dirs := dirs[product := PutFile(dirs[product], name, content)];
    }
  }
}
