/** The /restock command (commands/restock.js): an uploaded .zip is extracted
    and, for every product of the catalogue, the matching entry found anywhere
    in the extracted tree is added to the stock. Line-mode products take the
    non-blank lines of `<name>.txt`, appended to their stock file; file-mode
    products take the regular files of the folder `<name>`, copied into their
    stock directory under a `<timestamp>_` prefix. Every product that gained
    units has its stored count recomputed from disk and is reported. The
    download and the extraction are left out: the extracted tree is a value. */
module Restock {
  import opened Text
  import opened Stock
  import opened Database

  /** `stat.isDirectory() && item === target` or `stat.isFile() && item === target`. */
  predicate Matches(e: Entry, target: string, isDir: bool) {
    e.name == target && (if isDir then e.Folder? else e.File?)
  }

  /** findInDirectory (commands/restock.js:47-64): each item in listing order is
      tested first, then, if it is a folder, searched; the first hit wins. */
  function FindIn(entries: seq<Entry>, target: string, isDir: bool): Option<Entry>
    decreases entries
  {
    if entries == [] then None
    else
      var e := entries[0];
      if Matches(e, target, isDir) then Some(e)
      else
        var inner := if e.Folder? then FindIn(e.children, target, isDir) else None;
        if inner.Some? then inner else FindIn(entries[1..], target, isDir)
  }

  /** Every entry of a tree, each before its children: the order the search
      visits them. */
  function Preorder(entries: seq<Entry>): seq<Entry>
    decreases entries
  {
    if entries == [] then []
    else [entries[0]] + (if entries[0].Folder? then Preorder(entries[0].children) else []) + Preorder(entries[1..])
  }

  /** The first entry of a list that matches, the reference the search is
      compared with. */
  function FirstMatch(es: seq<Entry>, target: string, isDir: bool): Option<Entry> {
    if es == [] then None
    else if Matches(es[0], target, isDir) then Some(es[0])
    else FirstMatch(es[1..], target, isDir)
  }

  /** What FirstMatch returns matches and is listed, and it returns nothing
      only when no entry matches. */
  lemma {:induction false} FirstMatchSound(es: seq<Entry>, target: string, isDir: bool)
    ensures var r := FirstMatch(es, target, isDir);
      (r.Some? ==> Matches(r.value, target, isDir) && r.value in es)
      && (r.None? <==> forall e :: e in es ==> !Matches(e, target, isDir))
    decreases |es|
  {
    if es != [] && !Matches(es[0], target, isDir) {
      FirstMatchSound(es[1..], target, isDir);
      assert forall e :: e in es ==> e == es[0] || e in es[1..];
    }
  }

  lemma {:induction false} FirstMatchAppend(a: seq<Entry>, b: seq<Entry>, target: string, isDir: bool)
    ensures FirstMatch(a + b, target, isDir)
            == if FirstMatch(a, target, isDir).Some? then FirstMatch(a, target, isDir) else FirstMatch(b, target, isDir)
    decreases |a|
  {
    if a == [] {
      assert a + b == b;
    } else {
      assert (a + b)[0] == a[0] && (a + b)[1..] == a[1..] + b;
      FirstMatchAppend(a[1..], b, target, isDir);
    }
  }

  /** The search finds the first matching entry in preorder, and nothing only
      when no entry of the tree matches. */
  lemma {:induction false} FindInIsFirstInPreorder(entries: seq<Entry>, target: string, isDir: bool)
    ensures FindIn(entries, target, isDir) == FirstMatch(Preorder(entries), target, isDir)
    decreases entries
  {
    if entries != [] {
      var e := entries[0];
      var sub := if e.Folder? then Preorder(e.children) else [];
      var inner := if e.Folder? then FindIn(e.children, target, isDir) else None;
      if e.Folder? {
        FindInIsFirstInPreorder(e.children, target, isDir);
      }
      FindInIsFirstInPreorder(entries[1..], target, isDir);
      FindStep(e, sub, Preorder(entries[1..]), target, isDir);
    }
  }

  /** One entry of the search: the entry itself, then what lies under it,
      then the entries after it. */
  lemma FindStep(e: Entry, sub: seq<Entry>, rest: seq<Entry>, target: string, isDir: bool)
    ensures FirstMatch([e] + sub + rest, target, isDir)
            == if Matches(e, target, isDir) then Some(e)
               else if FirstMatch(sub, target, isDir).Some? then FirstMatch(sub, target, isDir)
               else FirstMatch(rest, target, isDir)
  {
    FirstMatchCons(e, sub + rest, target, isDir);
    FirstMatchAppend(sub, rest, target, isDir);
    assert [e] + sub + rest == [e] + (sub + rest);
  }

  lemma FirstMatchCons(e: Entry, tail: seq<Entry>, target: string, isDir: bool)
    ensures FirstMatch([e] + tail, target, isDir)
            == if Matches(e, target, isDir) then Some(e) else FirstMatch(tail, target, isDir)
  {
    assert ([e] + tail)[0] == e && ([e] + tail)[1..] == tail;
  }

  /** The line-mode append (commands/restock.js:94-96): a '\n' is inserted only
      when the old content is non-empty and does not end with one, then the
      new lines joined by '\n' and a final '\n'. */
  function Appended(existing: string, lines: seq<string>): string {
    existing + (if existing != "" && !EndsWith(existing, "\n") then "\n" else "") + Join(lines, "\n") + "\n"
  }

  /** Lines that can be appended: non-blank, without a line break. */
  predicate Appendable(lines: seq<string>) {
    forall k :: 0 <= k < |lines| ==> !IsBlank(lines[k]) && '\n' !in lines[k]
  }

  /** A '\n' between two texts separates their lines. */
  lemma LinesConcat(a: string, x: string)
    ensures Lines(a + "\n" + x) == Lines(a) + Lines(x)
  {
    SplitConcat(a, '\n', x);
    NonBlankAppend(Split(a, "\n"), Split(x, "\n"));
  }

  lemma LinesOfEmpty()
    ensures Lines("") == []
  {
    var sp := Split("", "\n");
    assert sp == [""];
    assert TrimStart("") == "" && TrimEnd("") == "";
    assert sp[1..] == [];
  }

  /** The appended part holds exactly the new lines. */
  lemma TailLines(lines: seq<string>)
    requires |lines| > 0 && Appendable(lines)
    ensures Lines(Join(lines, "\n") + "\n") == lines
  {
    var j := Join(lines, "\n");
    SplitJoin(lines, '\n');
    LinesConcat(j, "");
    NonBlankKeeps(lines);
    assert j + "\n" + "" == j + "\n";
    LinesOfEmpty();
  }

  /** An append keeps every unit of the file and adds exactly the new lines
      after them. */
  lemma AppendedLines(existing: string, lines: seq<string>)
    requires |lines| > 0 && Appendable(lines)
    ensures Lines(Appended(existing, lines)) == Lines(existing) + lines
  {
    if existing == "" {
      calc {
        Lines(Appended(existing, lines));
        { assert Appended(existing, lines) == Appended("", lines); }
        Lines(Appended("", lines));
        { AppendedToEmpty(lines); }
        lines;
        { EmptyAddsNoLines(existing, lines); }
        Lines(existing) + lines;
      }
    } else if EndsWith(existing, "\n") {
      AppendedAfterBreakLines(existing, lines);
    } else {
      AppendedWithBreakLines(existing, lines);
    }
  }

  lemma EmptyAddsNoLines(existing: string, lines: seq<string>)
    requires existing == ""
    ensures Lines(existing) + lines == lines
  {
    LinesOfEmpty();
  }

  /** Appending to a missing or empty stock file writes just the new lines. */
  lemma AppendedToEmpty(lines: seq<string>)
    requires |lines| > 0 && Appendable(lines)
    ensures Lines(Appended("", lines)) == lines
  {
    TailLines(lines);
    assert Appended("", lines) == Join(lines, "\n") + "\n";
  }

  lemma AppendedAfterBreakLines(existing: string, lines: seq<string>)
    requires |lines| > 0 && Appendable(lines)
    requires existing != "" && EndsWith(existing, "\n")
    ensures Lines(Appended(existing, lines)) == Lines(existing) + lines
  {
    var e := existing[..|existing| - 1];
    var x := Join(lines, "\n") + "\n";
    TailLines(lines);
    AppendedAfterBreak(existing, lines);
    LinesConcat(e, x);
    DropFinalBreak(existing);
  }

  lemma AppendedWithBreakLines(existing: string, lines: seq<string>)
    requires |lines| > 0 && Appendable(lines)
    requires existing != "" && !EndsWith(existing, "\n")
    ensures Lines(Appended(existing, lines)) == Lines(existing) + lines
  {
    var x := Join(lines, "\n") + "\n";
    TailLines(lines);
    assert Appended(existing, lines) == existing + "\n" + x;
    LinesConcat(existing, x);
  }

  lemma AppendedAfterBreak(existing: string, lines: seq<string>)
    requires existing != "" && EndsWith(existing, "\n")
    ensures Appended(existing, lines) == existing[..|existing| - 1] + "\n" + (Join(lines, "\n") + "\n")
  {
    assert existing == existing[..|existing| - 1] + "\n";
  }

  /** A final '\n' adds no line. */
  lemma DropFinalBreak(existing: string)
    requires existing != "" && EndsWith(existing, "\n")
    ensures Lines(existing) == Lines(existing[..|existing| - 1])
  {
    var e := existing[..|existing| - 1];
    assert existing == e + "\n" + "";
    LinesConcat(e, "");
    LinesOfEmpty();
  }

  /** The lines of a file taken from the zip: no line holds a '\n'. */
  lemma LinesHaveNoBreak(content: string)
    ensures Appendable(Lines(content))
  {
    SplitPiecesFree(content, '\n');
    NonBlankFrom(Split(content, "\n"), '\n');
  }

  /** The name a copied file gets: `${Date.now()}_${file}`. */
  function Stamped(now: nat, name: string): string {
    NatToString(now) + "_" + name
  }

  lemma StampedInjective(now: nat, a: string, b: string)
    requires Stamped(now, a) == Stamped(now, b)
    ensures a == b
  {
    var n := |NatToString(now) + "_"|;
    assert a == Stamped(now, a)[n..] && b == Stamped(now, b)[n..];
  }

  /** The content of a regular file of the listing. */
  function FileContent(e: Entry): string {
    if e.File? then e.content else ""
  }

  /** Copying the files one after the other (commands/restock.js:80-85). */
  function CopyAll(entries: seq<Entry>, files: seq<Entry>, now: nat): seq<Entry>
    decreases |files|
  {
    if files == [] then entries
    else
      var f := files[|files| - 1];
      PutFile(CopyAll(entries, files[..|files| - 1], now), Stamped(now, f.name), FileContent(f))
  }

  /** Copied files whose stamped names are new each add one file, and the
      copies land under their stamped names. */
  lemma {:induction false} CopyAllCount(entries: seq<Entry>, files: seq<Entry>, now: nat)
    requires forall i, j :: 0 <= i < j < |files| ==> files[i].name != files[j].name
    requires forall f :: f in files ==> Stamped(now, f.name) !in FileNames(entries)
    ensures |RegularFiles(CopyAll(entries, files, now))| == |RegularFiles(entries)| + |files|
    ensures forall n :: n in FileNames(CopyAll(entries, files, now)) ==>
      n in FileNames(entries) || exists f :: f in files && n == Stamped(now, f.name)
    decreases |files|
  {
    if files != [] {
      var init := files[..|files| - 1];
      var f := files[|files| - 1];
      CopyAllCount(entries, init, now);
      var before := CopyAll(entries, init, now);
      if Stamped(now, f.name) in FileNames(before) {
        var g :| g in init && Stamped(now, f.name) == Stamped(now, g.name);
        StampedInjective(now, f.name, g.name);
        assert false;
      }
      PutFileCount(before, Stamped(now, f.name), FileContent(f));
      PutFileNames(before, Stamped(now, f.name), FileContent(f));
    }
  }

  /** Copying in a file adds only its own name. */
  lemma {:induction false} PutFileNames(entries: seq<Entry>, name: string, content: string)
    ensures forall n :: n in FileNames(PutFile(entries, name, content)) ==> n in FileNames(entries) || n == name
    decreases |entries|
  {
    if entries != [] {
      PutFileNames(entries[1..], name, content);
      FileNamesTail(entries);
      var r := PutFile(entries, name, content);
      FileNamesTail(r);
      if entries[0].File? && entries[0].name == name {
        assert r[1..] == entries[1..];
      } else {
        assert r[1..] == PutFile(entries[1..], name, content);
      }
    }
  }

  /** What restocking one product does to the stock, and how many units it
      added (`stockAdded`). */
  datatype Outcome = Outcome(lineFiles: map<string, string>, dirs: map<string, seq<Entry>>, added: nat)

  /** One product of the loop at commands/restock.js:67-100. File mode: a
      matching folder creates the stock directory if needed and copies its
      regular files. Line mode: a matching `<name>.txt` with non-blank lines is
      appended to the stock file, created empty when missing. */
  function RestockOne(lineFiles: map<string, string>, dirs: map<string, seq<Entry>>, name: string,
                      cookieMode: bool, tree: seq<Entry>, now: nat): Outcome
  {
    if cookieMode then
      match FindIn(tree, name, true)
      case Some(Folder(_, children)) =>
        var files := RegularFiles(children);
        var existing := if name in dirs then dirs[name] else [];
        Outcome(lineFiles, dirs[name := CopyAll(existing, files, now)], |files|)
      case _ => Outcome(lineFiles, dirs, 0)
    else
      match FindIn(tree, name + ".txt", false)
      case Some(File(_, content)) =>
        var lines := Lines(content);
        if |lines| > 0 then
          var existing := if name in lineFiles then lineFiles[name] else "";
          Outcome(lineFiles[name := Appended(existing, lines)], dirs, |lines|)
        else Outcome(lineFiles, dirs, 0)
      case _ => Outcome(lineFiles, dirs, 0)
  }

  /** The copies of a file-mode restock do not collide: the folder's regular
      files have distinct names and no stamped name is already in the stock
      directory. */
  predicate FreshCopies(dirs: map<string, seq<Entry>>, name: string, tree: seq<Entry>, now: nat) {
    match FindIn(tree, name, true)
    case Some(Folder(_, children)) =>
      var files := RegularFiles(children);
      (forall i, j :: 0 <= i < j < |files| ==> files[i].name != files[j].name)
      && forall f :: f in files ==> Stamped(now, f.name) !in FileNames(if name in dirs then dirs[name] else [])
    case _ => true
  }

  /** The stock a product reports after a restock is its stock before plus the
      units added (in file mode when the copies do not collide), and every
      other product's files are untouched. */
  lemma RestockOneCount(lineFiles: map<string, string>, dirs: map<string, seq<Entry>>, name: string,
                        cookieMode: bool, tree: seq<Entry>, now: nat)
    requires cookieMode ==> FreshCopies(dirs, name, tree, now)
    ensures var o := RestockOne(lineFiles, dirs, name, cookieMode, tree, now);
      ActualCount(o.lineFiles, o.dirs, name, cookieMode) == ActualCount(lineFiles, dirs, name, cookieMode) + o.added
      && o.lineFiles - {name} == lineFiles - {name} && o.dirs - {name} == dirs - {name}
  {
    if cookieMode {
      FolderRestockCount(lineFiles, dirs, name, tree, now);
    } else {
      FileRestockCount(lineFiles, dirs, name, tree, now);
    }
  }

  lemma FolderRestockCount(lineFiles: map<string, string>, dirs: map<string, seq<Entry>>, name: string,
                           tree: seq<Entry>, now: nat)
    requires FreshCopies(dirs, name, tree, now)
    ensures var o := RestockOne(lineFiles, dirs, name, true, tree, now);
      ActualCount(o.lineFiles, o.dirs, name, true) == ActualCount(lineFiles, dirs, name, true) + o.added
      && o.lineFiles == lineFiles && o.dirs - {name} == dirs - {name}
  {
    match FindIn(tree, name, true)
    case Some(Folder(_, children)) =>
      var files := RegularFiles(children);
      var existing := if name in dirs then dirs[name] else [];
      CopyAllCount(existing, files, now);
      OtherKeysKept(dirs, name, CopyAll(existing, files, now));
    case _ =>
  }

  lemma FileRestockCount(lineFiles: map<string, string>, dirs: map<string, seq<Entry>>, name: string,
                         tree: seq<Entry>, now: nat)
    ensures var o := RestockOne(lineFiles, dirs, name, false, tree, now);
      ActualCount(o.lineFiles, o.dirs, name, false) == ActualCount(lineFiles, dirs, name, false) + o.added
      && o.lineFiles - {name} == lineFiles - {name} && o.dirs == dirs
  {
    var o := RestockOne(lineFiles, dirs, name, false, tree, now);
    var found := FindIn(tree, name + ".txt", false);
    if found.Some? && found.value.File? && |Lines(found.value.content)| > 0 {
      var lines := Lines(found.value.content);
      var existing := if name in lineFiles then lineFiles[name] else "";
      assert o == Outcome(lineFiles[name := Appended(existing, lines)], dirs, |lines|);
      LinesHaveNoBreak(found.value.content);
      AppendCount(lineFiles, dirs, name, lines);
      OtherKeysKept(lineFiles, name, Appended(existing, lines));
    } else {
      assert o == Outcome(lineFiles, dirs, 0);
    }
  }

  /** Appending lines to a stock file, existing or not, adds that many units. */
  lemma AppendCount(lineFiles: map<string, string>, dirs: map<string, seq<Entry>>, name: string, lines: seq<string>)
    requires |lines| > 0 && Appendable(lines)
    ensures var existing := if name in lineFiles then lineFiles[name] else "";
      ActualCount(lineFiles[name := Appended(existing, lines)], dirs, name, false)
      == ActualCount(lineFiles, dirs, name, false) + |lines|
  {
    var existing := if name in lineFiles then lineFiles[name] else "";
    AppendedLines(existing, lines);
    if name !in lineFiles {
      EmptyAddsNoLines(existing, lines);
    }
  }

  /** Writing one key leaves the others as they were. */
  lemma OtherKeysKept<V>(m: map<string, V>, k: string, v: V)
    ensures m[k := v] - {k} == m - {k}
  {
  }

  /** One line of the report: `{name, added, cookieMode, totalStock}`. */
  datatype RestockResult = RestockResult(name: string, added: nat, cookieMode: bool, totalStock: nat)

  /** The products table, the stock and the report so far. */
  datatype Shelf = Shelf(products: map<string, Product>, lineFiles: map<string, string>,
                         dirs: map<string, seq<Entry>>, results: seq<RestockResult>)

  /** One iteration: restock, then, if anything was added, recount from disk,
      store the count (commands/restock.js:101-103) and report it (104-109). */
  function RestockStep(sh: Shelf, name: string, cookieMode: bool, tree: seq<Entry>, now: nat): Shelf {
    var o := RestockOne(sh.lineFiles, sh.dirs, name, cookieMode, tree, now);
    if o.added > 0 then
      var total := ActualCount(o.lineFiles, o.dirs, name, cookieMode);
      var products := if name in sh.products then sh.products[name := sh.products[name].(stock := total)] else sh.products;
      Shelf(products, o.lineFiles, o.dirs, sh.results + [RestockResult(name, o.added, cookieMode, total)])
    else Shelf(sh.products, o.lineFiles, o.dirs, sh.results)
  }

  /** The loop over the catalogue, `(name, cookieMode)` in getAllProducts order. */
  function RestockAll(sh: Shelf, catalogue: seq<(string, bool)>, tree: seq<Entry>, now: nat): Shelf
    decreases |catalogue|
  {
    if catalogue == [] then sh
    else
      var last := catalogue[|catalogue| - 1];
      RestockStep(RestockAll(sh, catalogue[..|catalogue| - 1], tree, now), last.0, last.1, tree, now)
  }

  /** One iteration adds at most one line to the report, for that product,
      and only when it gained units. */
  lemma RestockStepReport(sh: Shelf, name: string, cookieMode: bool, tree: seq<Entry>, now: nat)
    ensures var r := RestockStep(sh, name, cookieMode, tree, now);
      (r.results == sh.results
       || (r.results == sh.results + [r.results[|sh.results|]]
           && r.results[|sh.results|].added > 0 && r.results[|sh.results|].name == name
           && r.results[|sh.results|].cookieMode == cookieMode))
  {
  }

  /** Every reported product gained units and comes from the catalogue, and
      the report lists them in catalogue order after what was there. */
  lemma {:induction false} RestockReport(sh: Shelf, catalogue: seq<(string, bool)>, tree: seq<Entry>, now: nat)
    ensures var r := RestockAll(sh, catalogue, tree, now);
      |sh.results| <= |r.results| <= |sh.results| + |catalogue| && r.results[..|sh.results|] == sh.results
      && forall k :: |sh.results| <= k < |r.results| ==>
           r.results[k].added > 0 && (r.results[k].name, r.results[k].cookieMode) in catalogue
    decreases |catalogue|
  {
    if catalogue != [] {
      var init := catalogue[..|catalogue| - 1];
      var last := catalogue[|catalogue| - 1];
      RestockReport(sh, init, tree, now);
      var before := RestockAll(sh, init, tree, now);
      RestockStepReport(before, last.0, last.1, tree, now);
      var r := RestockAll(sh, catalogue, tree, now);
      assert r == RestockStep(before, last.0, last.1, tree, now);
      assert forall c :: c in init ==> c in catalogue;
      assert r.results[..|before.results|] == before.results;
      assert r.results[..|sh.results|] == before.results[..|sh.results|];
      forall k | |sh.results| <= k < |r.results|
        ensures r.results[k].added > 0 && (r.results[k].name, r.results[k].cookieMode) in catalogue
      {
        if k < |before.results| {
          assert r.results[k] == before.results[k];
        }
      }
    }
  }

  /** The reply of the command. */
  datatype RestockReply = NotZip | NothingRestocked | Done(results: seq<RestockResult>)

  /** The copy loop of commands/restock.js:80-85 into an existing directory;
      `stockAdded` counts the copies. */
  method CopyFiles(disk: Disk, product: string, files: seq<Entry>, now: nat) returns (copied: nat)
    requires product in disk.dirs
    modifies disk`dirs
    ensures disk.dirs == old(disk.dirs)[product := CopyAll(old(disk.dirs)[product], files, now)]
    ensures copied == |files|
  {
    copied := 0;
    while copied < |files|
      invariant 0 <= copied <= |files|
      invariant disk.dirs == old(disk.dirs)[product := CopyAll(old(disk.dirs)[product], files[..copied], now)]
    {
      assert files[..copied + 1][..copied] == files[..copied];
      var f := files[copied];
      disk.CopyIn(product, Stamped(now, f.name), FileContent(f));
      copied := copied + 1;
    }
    assert files[..copied] == files;
  }

  /** One product of the restock loop, on the disk. */
  method RestockProduct(disk: Disk, name: string, cookieMode: bool, tree: seq<Entry>, now: nat) returns (added: nat)
    modifies disk`lineFiles, disk`dirs
    ensures Outcome(disk.lineFiles, disk.dirs, added) == RestockOne(old(disk.lineFiles), old(disk.dirs), name, cookieMode, tree, now)
  {
    added := 0;
    if cookieMode {
      var found := FindIn(tree, name, true);
      if found.Some? && found.value.Folder? {
        var files := RegularFiles(found.value.children);
        disk.EnsureDir(name);
        added := CopyFiles(disk, name, files, now);
      }
    } else {
      var found := FindIn(tree, name + ".txt", false);
      if found.Some? && found.value.File? {
        var lines := Lines(found.value.content);
        if |lines| > 0 {
          var existing := if name in disk.lineFiles then disk.lineFiles[name] else "";
          disk.WriteLineFile(name, Appended(existing, lines));
          added := |lines|;
        }
      }
    }
  }

  /** `getAllProducts()` (commands/restock.js:65): one `(name, cookieMode)`
      entry per row of the products table, each name once. */
  predicate ListsProducts(catalogue: seq<(string, bool)>, products: map<string, Product>) {
    && (forall i, j :: 0 <= i < j < |catalogue| ==> catalogue[i].0 != catalogue[j].0)
    && (forall i :: 0 <= i < |catalogue| ==>
          catalogue[i].0 in products && products[catalogue[i].0].cookieMode == catalogue[i].1)
    && (forall name :: name in products ==> exists i :: 0 <= i < |catalogue| && catalogue[i].0 == name)
  }

  /** The restock command after the admin check: a non-.zip attachment is
      refused with nothing changed (commands/restock.js:23-26); otherwise every
      product of the catalogue is restocked in turn and the reply is either
      "No products were restocked" or the report (112-117). */
  method Restock(db: Db, disk: Disk, attachment: string, catalogue: seq<(string, bool)>, tree: seq<Entry>, now: nat)
    returns (reply: RestockReply)
    requires ListsProducts(catalogue, db.products)
    modifies db`products, disk`lineFiles, disk`dirs
    ensures !EndsWith(attachment, ".zip") ==>
      reply == NotZip && db.products == old(db.products)
      && disk.lineFiles == old(disk.lineFiles) && disk.dirs == old(disk.dirs)
    ensures EndsWith(attachment, ".zip") ==>
      var sh := RestockAll(Shelf(old(db.products), old(disk.lineFiles), old(disk.dirs), []), catalogue, tree, now);
      db.products == sh.products && disk.lineFiles == sh.lineFiles && disk.dirs == sh.dirs
      && reply == (if sh.results == [] then NothingRestocked else Done(sh.results))
  {
    if !EndsWith(attachment, ".zip") {
      return NotZip;
    }
    ghost var start := Shelf(db.products, disk.lineFiles, disk.dirs, []);
    var results: seq<RestockResult> := [];
    var i := 0;
    while i < |catalogue|
      invariant 0 <= i <= |catalogue|
      invariant Shelf(db.products, disk.lineFiles, disk.dirs, results) == RestockAll(start, catalogue[..i], tree, now)
    {
      assert catalogue[..i + 1][..i] == catalogue[..i];
      var (name, cookieMode) := catalogue[i];
      var added := RestockProduct(disk, name, cookieMode, tree, now);
      if added > 0 {
        var actualStock := disk.Count(name, cookieMode);
        db.UpdateStock(name, actualStock);
        results := results + [RestockResult(name, added, cookieMode, actualStock)];
      }
      i := i + 1;
    }
    assert catalogue[..i] == catalogue;
    reply := if results == [] then NothingRestocked else Done(results);
  }
}
