/** The /add_product and /remove_product commands (commands/add_product.js,
    commands/remove_product.js): a product row and its stock file or
    directory are created or removed together. */
module Products {
  import opened Text
  import opened Stock
  import opened Database

  /** The products table and the stock on disk. */
  datatype Shop = Shop(products: map<string, Product>, lineFiles: map<string, string>, dirs: map<string, seq<Entry>>)

  /** The options of /add_product; the optional ones may be absent. */
  datatype AddOptions = AddOptions(name: string, price: int, cooldown: int, cookieMode: Option<string>,
                                   precheckLevel: Option<int>, precheckType: Option<string>)

  /** `getString('cookie_mode') === 'true'` */
  function CookieModeOf(opt: Option<string>): (r: bool)
    ensures r <==> opt == Some("true")
  {
    match opt
    case Some(v) => v == "true"
    case None => false
  }

  /** `getInteger('precheck_level') || 0`: a missing level is 0. */
  function LevelOf(opt: Option<int>): (r: int)
    ensures opt.None? ==> r == 0
    ensures opt.Some? ==> r == opt.value
  {
    match opt
    case Some(v) => if v == 0 then 0 else v
    case None => 0
  }

  /** `getString('precheck_type') || 'email:pass'`: a missing or empty type
      is 'email:pass', as the empty string is falsy. */
  function TypeOf(opt: Option<string>): (r: string)
    ensures r == "email:pass" <==> opt.None? || opt.value == "" || opt.value == "email:pass"
    ensures r != "" && (opt.Some? && opt.value != "" ==> r == opt.value)
  {
    match opt
    case Some(v) => if v == "" then "email:pass" else v
    case None => "email:pass"
  }

  /** The row addProduct writes. */
  function NewRow(opts: AddOptions, now: int): Product {
    Product(opts.price, opts.cooldown, CookieModeOf(opts.cookieMode), 0, now,
            LevelOf(opts.precheckLevel), TypeOf(opts.precheckType))
  }

  /** commands/add_product.js:45-67: upsert the row with stock 0, then create
      the product directory if it is missing (file mode) or overwrite the
      stock file with '' (line mode). */
  function Added(s: Shop, opts: AddOptions, now: int): Shop {
    var cookie := CookieModeOf(opts.cookieMode);
    var products := s.products[opts.name := NewRow(opts, now)];
    if cookie then
      Shop(products, s.lineFiles, if opts.name in s.dirs then s.dirs else s.dirs[opts.name := []])
    else Shop(products, s.lineFiles[opts.name := ""], s.dirs)
  }

  /** After /add_product the row exists with stock 0. In line mode the stock
      file is emptied, so the disk agrees; in file mode an existing directory
      keeps its files, so the disk may hold more units than the stored 0
      until the next sync. Other products are untouched. */
  lemma AddedStock(s: Shop, opts: AddOptions, now: int)
    ensures var t := Added(s, opts, now);
      var cookie := CookieModeOf(opts.cookieMode);
      opts.name in t.products && t.products[opts.name].stock == 0
      && t.products[opts.name].cookieMode == cookie
      && (!cookie ==> ActualCount(t.lineFiles, t.dirs, opts.name, false) == 0)
      && (cookie ==> ActualCount(t.lineFiles, t.dirs, opts.name, true) == ActualCount(s.lineFiles, s.dirs, opts.name, true))
      && t.products - {opts.name} == s.products - {opts.name}
  {
    var t := Added(s, opts, now);
    if !CookieModeOf(opts.cookieMode) {
      assert Split("", "\n") == [""];
      assert Trim("") == "";
      assert NonBlank([""]) == [];
    }
    assert t.products - {opts.name} == s.products - {opts.name};
  }

  /** /add_product on the database and the disk. */
  method AddProductCommand(db: Db, disk: Disk, opts: AddOptions, now: int)
    modifies db`products, disk`lineFiles, disk`dirs
    ensures Shop(db.products, disk.lineFiles, disk.dirs) == Added(old(Shop(db.products, disk.lineFiles, disk.dirs)), opts, now)
  {
    var cookieMode := CookieModeOf(opts.cookieMode);
    var precheckLevel := LevelOf(opts.precheckLevel);
    var precheckType := TypeOf(opts.precheckType);
    db.AddProduct(opts.name, opts.price, opts.cooldown, cookieMode, precheckLevel, precheckType, now);
    if cookieMode {
      disk.EnsureDir(opts.name);
    } else {
      disk.WriteLineFile(opts.name, "");
    }
  }

  /** commands/remove_product.js:32-57: an unknown product is reported and
      nothing changes; otherwise the row is deleted, then the directory (file
      mode) or the stock file (line mode). */
  function Removed(s: Shop, name: string): (r: Option<Shop>)
    ensures r.None? <==> name !in s.products
  {
    if name !in s.products then None
    else if s.products[name].cookieMode then Some(Shop(s.products - {name}, s.lineFiles, s.dirs - {name}))
    else Some(Shop(s.products - {name}, s.lineFiles - {name}, s.dirs))
  }

  /** After a removal the product is gone from the table, its units are gone
      from the disk, and nothing else changes. */
  lemma RemovedLeavesNothing(s: Shop, name: string)
    requires name in s.products
    ensures var t := Removed(s, name).value;
      var cookie := s.products[name].cookieMode;
      name !in t.products && ActualCount(t.lineFiles, t.dirs, name, cookie) == 0
      && t.products == s.products - {name}
      && (cookie ==> t.lineFiles == s.lineFiles && t.dirs - {name} == s.dirs - {name})
      && (!cookie ==> t.dirs == s.dirs && t.lineFiles - {name} == s.lineFiles - {name})
  {
    var t := Removed(s, name).value;
    assert t.dirs - {name} == s.dirs - {name} - {name};
    assert t.lineFiles - {name} == s.lineFiles - {name} - {name};
  }

  /** /remove_product on the database and the disk; `found` is false for an
      unknown product. */
  method RemoveProductCommand(db: Db, disk: Disk, name: string) returns (found: bool)
    modifies db`products, disk`lineFiles, disk`dirs
    ensures found <==> name in old(db.products)
    ensures found ==> Some(Shop(db.products, disk.lineFiles, disk.dirs)) == Removed(old(Shop(db.products, disk.lineFiles, disk.dirs)), name)
    ensures !found ==> db.products == old(db.products) && disk.lineFiles == old(disk.lineFiles) && disk.dirs == old(disk.dirs)
  {
    if name !in db.products {
      return false;
    }
    var product := db.products[name];
    db.RemoveProduct(name);
    if product.cookieMode {
      disk.RemoveDir(name);
    } else {
      disk.DeleteLineFile(name);
    }
    found := true;
  }
}
