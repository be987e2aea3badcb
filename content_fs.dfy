/** src/lib/content/fs.ts: which files of a content directory are entries, and
    which file an entry's slug names. The directory itself is an input: the
    listing `readdir` returns and the contents `readFile` would return, here
    already split by gray-matter into front matter and body. */
module ContentFs {
  import opened Wrappers
  import opened Text
  import opened Seqs
  import opened Sorting
  import Schemas

  /** One `Dirent`: its name and whether it is a regular file. */
  datatype DirEntry = DirEntry(name: string, isFile: bool)

  /** A parsed `.mdx` file: gray-matter's `data` and `content`. */
  datatype Source = Source(data: Schemas.Value, content: string)

  /** A content directory: what `readdir` lists and what each file holds. */
  datatype Directory = Directory(entries: seq<DirEntry>, files: map<string, Source>)

  const Extension := ".mdx"

  predicate IsMdxFile(e: DirEntry) {
    e.isFile && EndsWith(e.name, Extension)
  }

  /** `name.replace(/\.mdx$/, "")` */
  function StripExtension(name: string): (r: string)
    ensures EndsWith(name, Extension) ==> r + Extension == name
    ensures !EndsWith(name, Extension) ==> r == name
  {
    if EndsWith(name, Extension) then name[..|name| - |Extension|] else name
  }

  /** The slug each qualifying entry names, in listing order. */
  function Slugs(es: seq<DirEntry>): (r: seq<string>)
    ensures |r| == |es|
    ensures forall i :: 0 <= i < |es| ==> r[i] == StripExtension(es[i].name)
  {
    seq(|es|, i requires 0 <= i < |es| => StripExtension(es[i].name))
  }

  /** `listMdxSlugs`: the slugs of the regular `.mdx` files, sorted. */
  function ListMdxSlugs(d: Directory): (r: seq<string>)
    ensures |r| == |Filter(d.entries, IsMdxFile)|
    ensures multiset(r) == multiset(Slugs(Filter(d.entries, IsMdxFile)))
  {
    SortBy(Slugs(Filter(d.entries, IsMdxFile)), StrLess)
  }

  /** The slugs come out in ascending order. */
  lemma ListMdxSlugsSorted(d: Directory)
    ensures Sorted(ListMdxSlugs(d), StrLess)
  {
    StrLessWeakOrder();
    SortBySorted(Slugs(Filter(d.entries, IsMdxFile)), StrLess);
  }

  /** Every slug is a regular `.mdx` file's name less its extension, and every
      such file contributes its slug. */
  lemma ListMdxSlugsMembers(d: Directory, slug: string)
    ensures slug in ListMdxSlugs(d) <==>
      exists e :: e in d.entries && IsMdxFile(e) && e.name == slug + Extension
  {
    var q := Filter(d.entries, IsMdxFile);
    var names := Slugs(q);
    assert slug in ListMdxSlugs(d) <==> slug in names by {
      assert slug in multiset(ListMdxSlugs(d)) <==> slug in multiset(names);
    }
    if slug in names {
      var i :| 0 <= i < |names| && names[i] == slug;
      assert q[i] in q;
    }
    if e :| e in d.entries && IsMdxFile(e) && e.name == slug + Extension {
      assert e in q;
      var i :| 0 <= i < |q| && q[i] == e;
      assert (slug + Extension)[..|slug|] == slug;
      assert names[i] == slug;
    }
  }

  /** `readMdxFile(dir, slug)`: the file named `slug + ".mdx"`; a missing one
      is the error `readFile` raises. */
  function ReadMdxFile(d: Directory, slug: string): (r: Option<Source>)
    ensures r.Some? <==> slug + Extension in d.files
    ensures r.Some? ==> r.value == d.files[slug + Extension]
  {
    if slug + Extension in d.files then Some(d.files[slug + Extension]) else None
  }

  /** Every regular file the listing shows can be read. */
  predicate Consistent(d: Directory) {
    forall e :: e in d.entries && e.isFile ==> e.name in d.files
  }

  /** In a consistent directory every listed slug reads back its own file. */
  lemma ListedSlugsReadable(d: Directory, slug: string)
    requires Consistent(d)
    requires slug in ListMdxSlugs(d)
    ensures ReadMdxFile(d, slug).Some?
  {
    ListMdxSlugsMembers(d, slug);
  }
}
