/** The image path helper: set the images of one product, found by id, in
    one catalog file; list each product with whether it has an image; and
    the command line that chooses between the two. */
module UpdateImagePaths {
  import opened Wrappers
  import opened Strings
  import opened Equipment
  import opened Traversal

  /** The position of the first product with the id, or |ps| if none has it. */
  function FindIn(ps: seq<Product>, id: string): (r: nat)
    ensures r <= |ps|
    ensures r < |ps| ==> ps[r].id == id
    ensures forall k :: 0 <= k < r ==> ps[k].id != id
  {
    if ps == [] then 0
    else if ps[0].id == id then 0
    else 1 + FindIn(ps[1..], id)
  }

  /** The first (category, product) position, from category i on, of a
      product with the id. */
  function LocateFrom(cats: seq<Category>, id: string, i: nat): Option<(nat, nat)>
    decreases |cats| - i
  {
    if i >= |cats| then None
    else if FindIn(cats[i].subcategories, id) < |cats[i].subcategories| then Some((i, FindIn(cats[i].subcategories, id)))
    else LocateFrom(cats, id, i + 1)
  }

  /** The first position, in category-then-product order, of a product
      with the id. */
  function Locate(cats: seq<Category>, id: string): Option<(nat, nat)> {
    LocateFrom(cats, id, 0)
  }

  /** (i', j') comes before (i, j) in traversal order. */
  predicate Before(i': nat, j': nat, i: nat, j: nat) {
    i' < i || (i' == i && j' < j)
  }

  lemma {:induction false} LocateFromFirst(cats: seq<Category>, id: string, i: nat)
    ensures LocateFrom(cats, id, i).None? <==>
      forall i', j' :: i <= i' < |cats| && 0 <= j' < |cats[i'].subcategories| ==> cats[i'].subcategories[j'].id != id
    ensures LocateFrom(cats, id, i).Some? ==>
      var (a, b) := LocateFrom(cats, id, i).value;
      && i <= a < |cats| && b < |cats[a].subcategories| && cats[a].subcategories[b].id == id
      && forall i', j' :: i <= i' < |cats| && 0 <= j' < |cats[i'].subcategories| && Before(i', j', a, b) ==>
           cats[i'].subcategories[j'].id != id
    decreases |cats| - i
  {
    if i < |cats| {
      LocateFromFirst(cats, id, i + 1);
    }
  }

  /** The located product has the id and is the first one that has it; none
      is located exactly when no product has the id. */
  lemma LocateFirst(cats: seq<Category>, id: string)
    ensures Locate(cats, id).None? <==>
      forall i', j' :: 0 <= i' < |cats| && 0 <= j' < |cats[i'].subcategories| ==> cats[i'].subcategories[j'].id != id
    ensures Locate(cats, id).Some? ==>
      var (i, j) := Locate(cats, id).value;
      && i < |cats| && j < |cats[i].subcategories| && cats[i].subcategories[j].id == id
      && forall i', j' :: 0 <= i' < |cats| && 0 <= j' < |cats[i'].subcategories| && Before(i', j', i, j) ==>
           cats[i'].subcategories[j'].id != id
  {
    LocateFromFirst(cats, id, 0);
  }

  /** `product.image = imagePaths[0]; product.images = imagePaths`; with no
      paths the first is `undefined`. */
  function SetPaths(p: Product, paths: seq<string>): Product {
    WithImages(p, if |paths| > 0 then Some(paths[0]) else None, paths)
  }

  /** The product at (i, j) set to the paths, everything else kept. */
  function SetAt(cats: seq<Category>, i: nat, j: nat, paths: seq<string>): seq<Category>
    requires i < |cats| && j < |cats[i].subcategories|
  {
    cats[i := cats[i].(subcategories := cats[i].subcategories[j := SetPaths(cats[i].subcategories[j], paths)])]
  }

  /** The catalog after the update: only the first product with the id
      changes. */
  function Updated(cats: seq<Category>, id: string, paths: seq<string>): seq<Category> {
    match Locate(cats, id)
    case None => cats
    case Some((i, j)) =>
      LocateFirst(cats, id);
      SetAt(cats, i, j, paths)
  }

  /** Only the first product with the id gets the paths, with `image` the
      first of them; later products with the same id and all others are
      kept, and the shape of the catalog is the same. */
  lemma UpdatedFirstOnly(cats: seq<Category>, id: string, paths: seq<string>)
    requires Locate(cats, id).Some?
    ensures var (i, j) := Locate(cats, id).value; i < |cats| && j < |cats[i].subcategories|
    ensures var (i, j) := Locate(cats, id).value;
      var out := Updated(cats, id, paths);
      && SameShape(out, cats)
      && out[i].subcategories[j].images == Some(paths)
      && (|paths| > 0 ==> out[i].subcategories[j].image == Some(paths[0]))
      && SameExceptImages(cats[i].subcategories[j], out[i].subcategories[j])
      && forall i', j' :: 0 <= i' < |cats| && 0 <= j' < |cats[i'].subcategories| && (i', j') != (i, j) ==>
           out[i'].subcategories[j'] == cats[i'].subcategories[j']
  {
    LocateFirst(cats, id);
  }

  /** `updateImagePaths` on a parsed file: the nested search that stops at
      the first product with the id, sets its images in place and is then
      written; when no product has the id nothing is written. */
  method UpdateImagePaths(cats: seq<Category>, productId: string, imagePaths: seq<string>)
    returns (out: seq<Category>, found: bool, written: bool)
    ensures found <==> Locate(cats, productId).Some?
    ensures out == Updated(cats, productId, imagePaths)
    ensures written == found
  {
    out := cats;
    found := false;
    var i := 0;
    while i < |cats|
      invariant 0 <= i <= |cats|
      invariant !found
      invariant out == cats
      invariant Locate(cats, productId) == LocateFrom(cats, productId, i)
    {
      var ps := cats[i].subcategories;
      var j := 0;
      while j < |ps|
        invariant 0 <= j <= |ps|
        invariant !found && out == cats
        invariant forall k :: 0 <= k < j ==> ps[k].id != productId
      {
        if ps[j].id == productId {
          out := cats[i := cats[i].(subcategories := ps[j := SetPaths(ps[j], imagePaths)])];
          found := true;
          break;
        }
        j := j + 1;
      }
      if found {
        assert FindIn(ps, productId) == j;
        break;
      }
      i := i + 1;
    }
    written := found;
  }

  /** The whole `update` command on one file: the file's contents to write,
      or None when it cannot be read or parsed, or no product has the id. */
  method UpdateFile(data: Option<seq<Category>>, productId: string, imagePaths: seq<string>)
    returns (write: Option<seq<Category>>)
    ensures data.None? ==> write.None?
    ensures data.Some? ==> (write.Some? <==> Locate(data.value, productId).Some?)
    ensures write.Some? ==> write.value == Updated(data.value, productId, imagePaths)
  {
    match data
    case None =>
      write := None;
    case Some(cats) =>
      var out, found, written := UpdateImagePaths(cats, productId, imagePaths);
      write := if written then Some(out) else None;
  }

  /** The mark of `listProducts`: an image that is present, non-empty and
      not a placeholder. */
  predicate Listed(p: Product) {
    Truthy(p.image) && !Contains(p.image.value, "placeholder")
  }

  /** One line per product, in traversal order: its id and its mark. */
  function Listing(ps: seq<Product>): (rows: seq<(string, bool)>)
    ensures |rows| == |ps|
    ensures forall k :: 0 <= k < |ps| ==> rows[k] == (ps[k].id, Listed(ps[k]))
  {
    seq(|ps|, k requires 0 <= k < |ps| => (ps[k].id, Listed(ps[k])))
  }

  /** `listProducts`: the nested loops that print one line per product. */
  method ListProducts(cats: seq<Category>) returns (rows: seq<(string, bool)>)
    ensures rows == Listing(Products(cats))
  {
    rows := [];
    for i := 0 to |cats|
      invariant rows == Listing(Products(cats[..i]))
    {
      var ps := cats[i].subcategories;
      for j := 0 to |ps|
        invariant rows == Listing(Products(cats[..i]) + ps[..j])
      {
        assert Products(cats[..i]) + ps[..j + 1] == (Products(cats[..i]) + ps[..j]) + [ps[j]];
        rows := rows + [(ps[j].id, Listed(ps[j]))];
      }
      CountStep(cats, i);
      assert ps[..|ps|] == ps;
    }
    assert cats[..|cats|] == cats;
  }

  /** What the command line does. */
  datatype Command =
    | ShowUsage
    | RunUpdate(dataFile: string, productId: string, imagePaths: seq<string>)
    | RunList(dataFile: string)
    | Exit(status: nat)

  /** The arguments after the script name: no arguments print the usage;
      `update` needs a file, an id and at least one path; `list` needs a
      file; anything else exits with status 1. */
  function ParseArgs(args: seq<string>): (c: Command)
    ensures c.ShowUsage? <==> args == []
    ensures c.RunUpdate? ==> |args| >= 4 && args[0] == "update" && |c.imagePaths| >= 1
    ensures c.RunUpdate? ==> c == RunUpdate(args[1], args[2], args[3..])
    ensures c.RunList? ==> |args| >= 2 && args[0] == "list" && c.dataFile == args[1]
    ensures c.Exit? ==> c.status == 1
    ensures args != [] && args[0] != "update" && args[0] != "list" ==> c == Exit(1)
  {
    if args == [] then ShowUsage
    else if args[0] == "update" then
      if |args| < 4 then Exit(1) else RunUpdate(args[1], args[2], args[3..])
    else if args[0] == "list" then
      if |args| < 2 then Exit(1) else RunList(args[1])
    else Exit(1)
  }

  /** Each well-formed command runs; a short one exits with status 1. */
  lemma ParseArgsComplete(args: seq<string>)
    requires args != []
    ensures args[0] == "update" ==> (ParseArgs(args).RunUpdate? <==> |args| >= 4)
    ensures args[0] == "list" ==> (ParseArgs(args).RunList? <==> |args| >= 2)
  {
  }
}
