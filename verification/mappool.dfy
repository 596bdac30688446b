/** The map catalog and the shuffle that draws a session's pool from it
    (the `shuffleMaps` helper of server.js). */
module MapPool {

  /** One map of the pool. Catalog entries have no `banned` field in the
      source, which reads as false; a session sets it to true when the map
      is banned. */
  datatype MapEntry = MapEntry(id: int, name: string, image: string, banned: bool)

  /** The catalog entry with id `id`, for ids 1 to 11 of the fixed,
      hard-coded catalog. */
  function CatalogEntry(id: int): MapEntry
    requires 1 <= id <= CatalogSize
  {
    match id
    case 1 => MapEntry(1, "Bind", "bind.webp", false)
    case 2 => MapEntry(2, "Haven", "haven.webp", false)
    case 3 => MapEntry(3, "Split", "split.webp", false)
    case 4 => MapEntry(4, "Ascent", "ascent.webp", false)
    case 5 => MapEntry(5, "Icebox", "icebox.webp", false)
    case 6 => MapEntry(6, "Breeze", "breeze.webp", false)
    case 7 => MapEntry(7, "Fracture", "fracture.webp", false)
    case 8 => MapEntry(8, "Pearl", "pearl.webp", false)
    case 9 => MapEntry(9, "Lotus", "lotus.webp", false)
    case 10 => MapEntry(10, "Sunset", "sunset.webp", false)
    case _ => MapEntry(11, "Abyss", "abyss.webp", false)
  }

  /** Number of maps in the catalog. */
  const CatalogSize: nat := 11

  /** The catalog in its written order, ids 1 to 11. */
  const Catalog: seq<MapEntry> := seq(CatalogSize, i requires 0 <= i < CatalogSize => CatalogEntry(i + 1))

  /** No two maps of `maps` share an id. */
  ghost predicate DistinctIds(maps: seq<MapEntry>)
  {
    forall i, j :: 0 <= i < j < |maps| ==> maps[i].id != maps[j].id
  }

  /** Every map of `maps` is the catalog entry of its id (so, unbanned). */
  ghost predicate FromCatalog(maps: seq<MapEntry>)
  {
    forall i :: 0 <= i < |maps| ==> 1 <= maps[i].id <= CatalogSize && maps[i] == CatalogEntry(maps[i].id)
  }

  /** A sequence whose entry at index k carries id k + 1, unbanned. */
  ghost predicate Indexed(from: seq<MapEntry>)
  {
    forall a :: 0 <= a < |from| ==> from[a].id == a + 1 && !from[a].banned
  }

  /** The catalog holds eleven unbanned maps, the map with id k at index k - 1. */
  lemma CatalogShape()
    ensures |Catalog| == CatalogSize
    ensures Indexed(Catalog) && DistinctIds(Catalog)
  {
  }

  /** A sequence without repeated elements holds each value at most once. */
  lemma {:induction false} DistinctCountsAtMostOne(s: seq<MapEntry>, x: MapEntry)
    requires forall i, j :: 0 <= i < j < |s| ==> s[i] != s[j]
    ensures multiset(s)[x] <= 1
  {
    if s != [] {
      var t := s[1..];
      assert s == [s[0]] + t;
      DistinctCountsAtMostOne(t, x);
      if s[0] == x {
        assert x !in t;
      }
    }
  }

  /** A value that sits at two positions of a sequence is counted twice. */
  lemma TwoPositionsCountTwice(s: seq<MapEntry>, i: nat, j: nat)
    requires i < j < |s| && s[i] == s[j]
    ensures multiset(s)[s[i]] >= 2
  {
    assert s == s[..j] + s[j..];
    assert s[i] in s[..j];
    assert s[j] in s[j..];
  }

  /** Any rearrangement of a sequence of maps with pairwise-distinct ids
      keeps its length, its entries and the distinctness of its ids. */
  lemma {:induction false} PermutationKeepsDistinctIds(maps: seq<MapEntry>, from: seq<MapEntry>)
    requires multiset(maps) == multiset(from)
    requires DistinctIds(from)
    ensures |maps| == |from|
    ensures forall i :: 0 <= i < |maps| ==> maps[i] in from
    ensures DistinctIds(maps)
  {
    assert |maps| == |multiset(maps)| == |multiset(from)| == |from|;
    forall i | 0 <= i < |maps|
      ensures maps[i] in from
    {
      assert maps[i] in multiset(maps);
    }
    forall i, j | 0 <= i < j < |maps|
      ensures maps[i].id != maps[j].id
    {
      if maps[i].id == maps[j].id {
        var a :| 0 <= a < |from| && from[a] == maps[i];
        var b :| 0 <= b < |from| && from[b] == maps[j];
        assert a == b;
        TwoPositionsCountTwice(maps, i, j);
        DistinctCountsAtMostOne(from, maps[i]);
        assert false;
      }
    }
  }

  /** A rearrangement of an indexed sequence holds, for each of its ids,
      the entry of the original sequence that carries that id. */
  lemma {:induction false} RearrangedIndexed(maps: seq<MapEntry>, from: seq<MapEntry>)
    requires multiset(maps) == multiset(from)
    requires Indexed(from)
    ensures |maps| == |from| && DistinctIds(maps)
    ensures forall i :: 0 <= i < |maps| ==> 1 <= maps[i].id <= |from| && maps[i] == from[maps[i].id - 1] && !maps[i].banned
  {
    PermutationKeepsDistinctIds(maps, from);
    forall i | 0 <= i < |maps|
      ensures 1 <= maps[i].id <= |from| && maps[i] == from[maps[i].id - 1]
    {
      var a :| 0 <= a < |from| && from[a] == maps[i];
    }
  }

  lemma PermutationOfCatalog(maps: seq<MapEntry>)
    requires multiset(maps) == multiset(Catalog)
    ensures |maps| == |Catalog| == CatalogSize
    ensures FromCatalog(maps) && DistinctIds(maps)
    ensures forall i :: 0 <= i < |maps| ==> !maps[i].banned
  {
    CatalogShape();
    RearrangedIndexed(maps, Catalog);
  }

  /** The first seven maps of a rearranged catalog: seven catalog entries,
      none banned, with pairwise-distinct ids in 1..11. */
  lemma DrawnPool(shuffled: seq<MapEntry>)
    requires multiset(shuffled) == multiset(Catalog)
    ensures |shuffled| == CatalogSize
    ensures var pool := shuffled[..7];
            && FromCatalog(pool) && DistinctIds(pool)
            && forall i :: 0 <= i < |pool| ==> !pool[i].banned
  {
    PermutationOfCatalog(shuffled);
  }

  /** `shuffleMaps`: copies the catalog into a fresh array and rearranges it
      in place. The random comparator of the source's sort is replaced by the
      sequence of exchanges `swaps` that the sort performs; each index is
      taken modulo the catalog size. Whatever the exchanges, the result is a
      permutation of the catalog. */
  method ShuffleMaps(swaps: seq<(nat, nat)>) returns (maps: seq<MapEntry>)
    ensures multiset(maps) == multiset(Catalog)
  {
    var n := |Catalog|;
    var a := new MapEntry[n](i requires 0 <= i < n => Catalog[i]);
    ghost var start := a[..];
    var k := 0;
    while k < |swaps|
      invariant 0 <= k <= |swaps|
      invariant multiset(a[..]) == multiset(start)
    {
      var i, j := swaps[k].0 % n, swaps[k].1 % n;
      a[i], a[j] := a[j], a[i];
      k := k + 1;
    }
    maps := a[..];
    assert start == Catalog;
  }
}
