/** Dotted leaf-first paths: resolving one is the inverse of rendering it. */
module CatalogPaths {
  import opened Basics
  import opened Forest
  import opened Ltree
  import opened Catalog

  /** Names from a folder up to its root. */
  ghost function NameChain(folders: map<Id, FolderRow>, f: Id): (chain: seq<string>)
    requires ForestOk(folders) && f in folders
    ensures |chain| > 0 && chain[0] == folders[f].name
    decreases |folders[f].path|
  {
    ParentOf(folders, f);
    if folders[f].parent.None? then [folders[f].name]
    else [folders[f].name] + NameChain(folders, folders[f].parent.value)
  }

  lemma ParentOf(folders: map<Id, FolderRow>, f: Id)
    requires ForestOk(folders) && f in folders
    ensures folders[f].parent.Some? ==>
      folders[f].parent.value in folders && |folders[folders[f].parent.value].path| < |folders[f].path|
  {
    assert ParentsOf(folders)[f] == folders[f].parent && PathsOf(folders)[f] == folders[f].path;
    assert PathAt(ParentsOf(folders), PathsOf(folders), f);
  }

  /** FolderPath: the folder's own name first, joined with dots. */
  ghost function FolderPath(folders: map<Id, FolderRow>, f: Id): string
    requires ForestOk(folders) && f in folders
  {
    Join(NameChain(folders, f), '.')
  }

  ghost function AssetPath(t: Tree, a: Id): string
    requires ForestOk(t.folders) && AssetsOk(t) && a in t.assets
  {
    Join([t.assets[a].name] + NameChain(t.folders, t.assets[a].folder), '.')
  }

  lemma CanonicalFree(name: string)
    requires Canonical(name)
    ensures Free(name, '.')
  {
  }

  lemma {:induction false} ChainFree(t: Tree, names: Names, f: Id)
    requires ForestOk(t.folders) && NamesOk(t, names) && f in t.folders
    ensures AllFree(NameChain(t.folders, f), '.')
    decreases |t.folders[f].path|
  {
    assert FolderNamed(t.folders, names, f);
    CanonicalFree(t.folders[f].name);
    ParentOf(t.folders, f);
    if t.folders[f].parent.Some? { ChainFree(t, names, t.folders[f].parent.value); }
  }

  /** Sibling uniqueness makes a name chain name one folder. */
  lemma {:induction false} ChainInjective(t: Tree, names: Names, f: Id, g: Id)
    requires ForestOk(t.folders) && NamesOk(t, names) && f in t.folders && g in t.folders
    requires NameChain(t.folders, f) == NameChain(t.folders, g)
    ensures f == g
    decreases |t.folders[f].path|
  {
    var cf, cg := NameChain(t.folders, f), NameChain(t.folders, g);
    ParentOf(t.folders, f);
    ParentOf(t.folders, g);
    var pf, pg := t.folders[f].parent, t.folders[g].parent;
    assert pf.Some? <==> |cf| > 1;
    if pf.Some? && pg.Some? {
      assert cf[1..] == NameChain(t.folders, pf.value) && cg[1..] == NameChain(t.folders, pg.value);
      ChainInjective(t, names, pf.value, pg.value);
    }
    assert FolderNamed(t.folders, names, f) && FolderNamed(t.folders, names, g);
    assert FolderKey(t.folders[f]) == FolderKey(t.folders[g]);
  }

  /** A suffix of a folder's chain is the chain of one of its ancestors. */
  lemma {:induction false} ChainSuffix(folders: map<Id, FolderRow>, f: Id, i: nat) returns (g: Id)
    requires ForestOk(folders) && f in folders && i < |NameChain(folders, f)|
    ensures g in folders && NameChain(folders, g) == NameChain(folders, f)[i..]
    decreases |folders[f].path|
  {
    if i == 0 {
      g := f;
    } else {
      ParentOf(folders, f);
      var up := folders[f].parent.value;
      assert NameChain(folders, f)[1..] == NameChain(folders, up);
      g := ChainSuffix(folders, up, i - 1);
      assert NameChain(folders, f)[i..] == NameChain(folders, f)[1..][i - 1..];
    }
  }

  /** The walk from the root: the folder whose chain is segs[from..], if there is one. */
  method WalkFolders(t: Tree, ghost names: Names, segs: seq<string>, from: nat) returns (r: Option<Id>)
    requires ForestOk(t.folders) && NamesOk(t, names) && from < |segs|
    ensures forall f :: r == Some(f) <==> f in t.folders && NameChain(t.folders, f) == segs[from..]
  {
    var parent: Option<Id> := None;
    var i := |segs|;
    while i > from
      invariant from <= i <= |segs|
      invariant i == |segs| <==> parent.None?
      invariant parent.Some? ==> parent.value in t.folders && NameChain(t.folders, parent.value) == segs[i..]
    {
      i := i - 1;
      assert segs[i..] == [segs[i]] + segs[i + 1..];
      if f :| f in t.folders && t.folders[f].parent == parent && t.folders[f].name == segs[i] {
        parent := Some(f);
      } else {
        forall f | f in t.folders ensures NameChain(t.folders, f) != segs[from..] {
          if NameChain(t.folders, f) == segs[from..] { NoSuchChild(t, names, segs, from, i, parent, f); }
        }
        return None;
      }
    }
    forall f | f in t.folders && NameChain(t.folders, f) == segs[from..] ensures f == parent.value {
      ChainInjective(t, names, f, parent.value);
    }
    return parent;
  }

  /** If some folder had this chain, the failed lookup would have found a child. */
  lemma NoSuchChild(t: Tree, names: Names, segs: seq<string>, from: nat, i: nat, parent: Option<Id>, f: Id)
    requires ForestOk(t.folders) && NamesOk(t, names) && from <= i < |segs|
    requires i + 1 == |segs| <==> parent.None?
    requires parent.Some? ==> parent.value in t.folders && NameChain(t.folders, parent.value) == segs[i + 1..]
    requires f in t.folders && NameChain(t.folders, f) == segs[from..]
    ensures exists g :: g in t.folders && t.folders[g].parent == parent && t.folders[g].name == segs[i]
  {
    var g := ChainSuffix(t.folders, f, i - from);
    assert NameChain(t.folders, g) == segs[i..] by { assert segs[from..][i - from..] == segs[i..]; }
    ParentOf(t.folders, g);
    if t.folders[g].parent.Some? {
      var up := t.folders[g].parent.value;
      assert NameChain(t.folders, up) == NameChain(t.folders, g)[1..] == segs[i + 1..];
      if parent.Some? { ChainInjective(t, names, up, parent.value); }
    }
  }

  /** resolveFolderIDByPath: a path resolves to f exactly when it is f's canonical path. */
  method ResolveFolderIdByPath(t: Tree, ghost names: Names, path: string) returns (r: Option<Id>)
    requires ForestOk(t.folders) && NamesOk(t, names)
    ensures forall f :: r == Some(f) <==> f in t.folders && FolderPath(t.folders, f) == path
  {
    var segs := Split(path, '.');
    r := WalkFolders(t, names, segs, 0);
    assert segs[0..] == segs;
    SplitParts(path, '.');
    forall f | f in t.folders ensures FolderPath(t.folders, f) == path <==> NameChain(t.folders, f) == segs {
      ChainFree(t, names, f);
      SplitJoin(NameChain(t.folders, f), '.');
    }
  }

  /** The path walk of ResolveAsset: at least one folder segment, then the asset by name. */
  method ResolveAssetByPath(t: Tree, ghost names: Names, path: string) returns (r: Option<Id>)
    requires ForestOk(t.folders) && AssetsOk(t) && NamesOk(t, names)
    ensures forall a :: r == Some(a) <==> a in t.assets && AssetPath(t, a) == path
  {
    var segs := Split(path, '.');
    SplitParts(path, '.');
    forall a | a in t.assets
      ensures AssetPath(t, a) == path <==> [t.assets[a].name] + NameChain(t.folders, t.assets[a].folder) == segs
    {
      AssetPathSplit(t, names, a);
    }
    if |segs| < 2 {
      return None;
    }
    var folder := WalkFolders(t, names, segs, 1);
    assert segs == [segs[0]] + segs[1..];
    forall a | a in t.assets
      ensures AssetPath(t, a) == path <==> folder == Some(t.assets[a].folder) && t.assets[a].name == segs[0]
    {
      assert ([t.assets[a].name] + NameChain(t.folders, t.assets[a].folder))[1..]
        == NameChain(t.folders, t.assets[a].folder);
    }
    if folder.None? {
      return None;
    }
    if a :| a in t.assets && t.assets[a].folder == folder.value && t.assets[a].name == segs[0] {
      forall a' | a' in t.assets && AssetPath(t, a') == path ensures a' == a {
        assert AssetNamed(t.assets, names, a) && AssetNamed(t.assets, names, a');
      }
      return Some(a);
    }
    return None;
  }

  lemma AssetPathSplit(t: Tree, names: Names, a: Id)
    requires ForestOk(t.folders) && AssetsOk(t) && NamesOk(t, names) && a in t.assets
    ensures Split(AssetPath(t, a), '.') == [t.assets[a].name] + NameChain(t.folders, t.assets[a].folder)
  {
    assert AssetNamed(t.assets, names, a);
    CanonicalFree(t.assets[a].name);
    ChainFree(t, names, t.assets[a].folder);
    SplitJoin([t.assets[a].name] + NameChain(t.folders, t.assets[a].folder), '.');
  }

  /** What a reference resolves to: a uuid by id and by nothing else, anything else by path. */
  ghost predicate Resolves(t: Tree, parse: string -> Option<Id>, ref: string, r: Option<Id>)
    requires ForestOk(t.folders)
  {
    match parse(ref)
    case Some(id) => r == if id in t.folders then Some(id) else None
    case None => forall f :: r == Some(f) <==> f in t.folders && FolderPath(t.folders, f) == ref
  }

  /** ResolveFolder tries the reference as a uuid first. A folder's own path therefore resolves to
      it exactly when the path does not parse as a uuid (or parses as that folder's own id). */
  method ResolveFolder(t: Tree, ghost names: Names, parse: string -> Option<Id>, ref: string) returns (r: Option<Id>)
    requires ForestOk(t.folders) && NamesOk(t, names)
    ensures Resolves(t, parse, ref, r)
    ensures forall f :: f in t.folders && FolderPath(t.folders, f) == ref ==>
              (r == Some(f) <==> parse(ref) == None || parse(ref) == Some(f))
    ensures r.Some? ==> r.value in t.folders && (parse(ref) == r || FolderPath(t.folders, r.value) == ref)
  {
    match parse(ref)
    case Some(id) => r := if id in t.folders then Some(id) else None;
    case None => r := ResolveFolderIdByPath(t, names, ref);
  }

  // ---- a folder named like a uuid -------------------------------------------------------------------

  predicate HexDigit(c: char) { '0' <= c <= '9' || 'a' <= c <= 'f' }

  function HexValue(c: char): nat
    requires HexDigit(c)
  {
    if c <= '9' then c as int - '0' as int else 10 + (c as int - 'a' as int)
  }

  predicate HexText(text: string) { forall i :: 0 <= i < |text| ==> HexDigit(text[i]) }

  function HexNumber(text: string): nat
    requires HexText(text)
  {
    if text == "" then 0 else 16 * HexNumber(text[..|text| - 1]) + HexValue(text[|text| - 1])
  }

  /** The form of a uuid that is 32 hexadecimal digits and nothing else. */
  function ParseHex32(ref: string): Option<Id>
  {
    if |ref| == 32 && HexText(ref) then Some(HexNumber(ref)) else None
  }

  function OneFolder(id: Id, name: string): Tree { Tree(map[id := FolderRow(name, None, [id])], map[]) }
  function OneName(id: Id, name: string): Names { map[NameKey(None, name) := FolderEntry(id)] }

  lemma OneFolderOk(id: Id, name: string)
    requires Canonical(name)
    ensures var t := OneFolder(id, name);
      ForestOk(t.folders) && NamesOk(t, OneName(id, name)) && FolderPath(t.folders, id) == name
  {
    var folders := OneFolder(id, name).folders;
    assert ParentsOf(folders) == map[id := None] && PathsOf(folders) == map[id := [id]];
    PathsAcyclic(ParentsOf(folders), PathsOf(folders));
  }

  /** A name of 32 hexadecimal digits is canonical and parses as an id, so a folder of that name and
      another id does not resolve by its own path. */
  lemma HexNameShadowed(id: Id, name: string, r: Option<Id>)
    requires |name| == 32 && HexText(name) && id != HexNumber(name)
    ensures var t := OneFolder(id, name);
      && ForestOk(t.folders) && NamesOk(t, OneName(id, name)) && FolderPath(t.folders, id) == name
      && (Resolves(t, ParseHex32, name, r) ==> r == None)
  {
    OneFolderOk(id, name);
  }

  const HEX_NAME := "0123456789abcdef0123456789abcdef"

  lemma HexNameIs()
    ensures |HEX_NAME| == 32 && HexText(HEX_NAME) && Canonical(HEX_NAME)
  {
  }

  lemma ShadowedFolder(r: Option<Id>) returns (id: Id)
    ensures var t := OneFolder(id, HEX_NAME);
      && ForestOk(t.folders) && NamesOk(t, OneName(id, HEX_NAME)) && FolderPath(t.folders, id) == HEX_NAME
      && (Resolves(t, ParseHex32, HEX_NAME, r) ==> r == None)
  {
    HexNameIs();
    id := HexNumber(HEX_NAME) + 1;
    HexNameShadowed(id, HEX_NAME, r);
  }
}
