/**
 * Listings: origin-tagged references to spells, and the pure operations the spell
 * library performs on its ordered sequence of them.
 */
module Listings {
  import opened Spells

  datatype Option<T> = None | Some(value: T)

  /** Where a listing came from. */
  datatype Origin = Default | LocalStorage | Account

  /** A search hint is either one string or a list of keywords. */
  datatype SearchHint = Keyword(text: string) | Keywords(texts: seq<string>)

  /** Opaque extra fields used for filtering and sorting. */
  type Metadata = map<string, string>

  /** A listing as it is received in bulk, before an origin is attached. */
  datatype StoredListing = StoredListing(
    Id: string, Name: string, Path: string, SearchHint: SearchHint, Metadata: Metadata, Link: string)

  /**
   * One entry of the library. Value holds the spell object when the listing was built
   * from one already in memory, and is None for listings that are loaded lazily via Link.
   */
  datatype Listing = Listing(
    Id: string, Name: string, Path: string, SearchHint: SearchHint, Metadata: Metadata, Link: string,
    Origin: Origin, Value: Option<Spell>)

  /** The public record of a listing: its fields without origin and value. */
  function Stored(l: Listing): StoredListing {
    StoredListing(l.Id, l.Name, l.Path, l.SearchHint, l.Metadata, l.Link)
  }

  /** The listing built for one received record, tagged with the given origin. */
  function FromStored(c: StoredListing, source: Origin): (l: Listing)
    ensures Stored(l) == c && l.Origin == source && l.Value == None
  {
    Listing(c.Id, c.Name, c.Path, c.SearchHint, c.Metadata, c.Link, source, None)
  }

  /** The listings built for a batch, in batch order: every field is copied and the origin is attached. */
  function FromStoredAll(cs: seq<StoredListing>, source: Origin): (r: seq<Listing>)
    ensures |r| == |cs|
    ensures forall i :: 0 <= i < |r| ==> Stored(r[i]) == cs[i] && r[i].Origin == source && r[i].Value == None
  {
    if cs == [] then [] else [FromStored(cs[0], source)] + FromStoredAll(cs[1..], source)
  }

  /** The listings of s whose Id differs from id, in their original order. */
  function Without(s: seq<Listing>, id: string): (r: seq<Listing>)
    ensures |r| <= |s|
    ensures forall l :: l in r ==> l in s && l.Id != id
    ensures forall l :: l in s && l.Id != id ==> l in r
  {
    if s == [] then []
    else (if s[0].Id == id then [] else [s[0]]) + Without(s[1..], id)
  }

  /** The display names of the listings, in order. */
  function Names(s: seq<Listing>): (r: seq<string>)
    ensures |r| == |s|
    ensures forall i :: 0 <= i < |s| ==> r[i] == s[i].Name
  {
    if s == [] then [] else [s[0].Name] + Names(s[1..])
  }

  /** How many listings of s carry the Id id. */
  function CountId(s: seq<Listing>, id: string): nat {
    if s == [] then 0 else (if s[0].Id == id then 1 else 0) + CountId(s[1..], id)
  }

  /** How many listings of s carry the Id id and the origin o. */
  function CountTagged(s: seq<Listing>, id: string, o: Origin): nat {
    if s == [] then 0 else (if s[0].Id == id && s[0].Origin == o then 1 else 0) + CountTagged(s[1..], id, o)
  }

  lemma {:induction false} CountIdConcat(a: seq<Listing>, b: seq<Listing>, id: string)
    ensures CountId(a + b, id) == CountId(a, id) + CountId(b, id)
  {
    if a != [] {
      assert (a + b)[1..] == a[1..] + b;
      CountIdConcat(a[1..], b, id);
    } else {
      assert a + b == b;
    }
  }

  lemma {:induction false} CountTaggedConcat(a: seq<Listing>, b: seq<Listing>, id: string, o: Origin)
    ensures CountTagged(a + b, id, o) == CountTagged(a, id, o) + CountTagged(b, id, o)
  {
    if a != [] {
      assert (a + b)[1..] == a[1..] + b;
      CountTaggedConcat(a[1..], b, id, o);
    } else {
      assert a + b == b;
    }
  }

  /** Listings with an Id and an origin are among the listings with that Id. */
  lemma {:induction false} TaggedBelowId(s: seq<Listing>, id: string, o: Origin)
    ensures CountTagged(s, id, o) <= CountId(s, id)
  {
    if s != [] {
      TaggedBelowId(s[1..], id, o);
    }
  }

  /** CountId counts exactly the positions whose listing has the Id. */
  lemma {:induction false} CountIdPositive(s: seq<Listing>, id: string)
    ensures CountId(s, id) > 0 <==> exists l :: l in s && l.Id == id
  {
    if s != [] {
      CountIdPositive(s[1..], id);
      assert forall l :: l in s <==> l == s[0] || l in s[1..];
    }
  }

  /** Removal distributes over concatenation: it acts on each listing where it stands. */
  lemma {:induction false} WithoutConcat(a: seq<Listing>, b: seq<Listing>, id: string)
    ensures Without(a + b, id) == Without(a, id) + Without(b, id)
  {
    if a != [] {
      var head := if a[0].Id == id then [] else [a[0]];
      assert (a + b)[0] == a[0] && (a + b)[1..] == a[1..] + b;
      assert Without(a + b, id) == head + Without(a[1..] + b, id);
      assert Without(a, id) == head + Without(a[1..], id);
      WithoutConcat(a[1..], b, id);
      assert head + (Without(a[1..], id) + Without(b, id)) == (head + Without(a[1..], id)) + Without(b, id);
    } else {
      assert a + b == b;
    }
  }

  /** No listing with the removed Id is left, whatever its origin. */
  lemma {:induction false} WithoutRemovesAll(s: seq<Listing>, id: string)
    ensures CountId(Without(s, id), id) == 0
  {
    if s != [] {
      WithoutRemovesAll(s[1..], id);
      CountIdConcat(if s[0].Id == id then [] else [s[0]], Without(s[1..], id), id);
    }
  }

  /** Every listing with another Id keeps its value and its number of copies. */
  lemma {:induction false} WithoutKeepsOthers(s: seq<Listing>, id: string)
    ensures forall l :: multiset(Without(s, id))[l] == if l.Id == id then 0 else multiset(s)[l]
  {
    if s != [] {
      WithoutKeepsOthers(s[1..], id);
      assert s == [s[0]] + s[1..];
      assert multiset(s) == multiset{s[0]} + multiset(s[1..]);
    }
  }

  /** A kept listing lands right after the kept listings that precede it. */
  lemma KeptAt(s: seq<Listing>, id: string, j: nat)
    requires j < |s| && s[j].Id != id
    ensures |Without(s[..j], id)| < |Without(s, id)|
    ensures Without(s, id)[|Without(s[..j], id)|] == s[j]
  {
    assert s == s[..j] + ([s[j]] + s[j + 1..]);
    WithoutConcat(s[..j], [s[j]] + s[j + 1..], id);
    WithoutConcat([s[j]], s[j + 1..], id);
  }

  /** A kept listing adds one to the number of kept listings before any later position. */
  lemma KeptBefore(s: seq<Listing>, id: string, i: nat, j: nat)
    requires i < j <= |s| && s[i].Id != id
    ensures |Without(s[..i], id)| < |Without(s[..j], id)|
  {
    var pre, mid := s[..i], s[i..j];
    assert s[..j] == pre + mid;
    WithoutConcat(pre, mid, id);
    assert mid == [s[i]] + mid[1..];
    WithoutConcat([s[i]], mid[1..], id);
  }

  /** Two kept listings stay in the same relative order. */
  lemma WithoutPreservesOrder(s: seq<Listing>, id: string, i: nat, j: nat)
    requires i < j < |s| && s[i].Id != id && s[j].Id != id
    ensures exists k1, k2 :: 0 <= k1 < k2 < |Without(s, id)|
                          && Without(s, id)[k1] == s[i] && Without(s, id)[k2] == s[j]
  {
    KeptAt(s, id, i);
    KeptAt(s, id, j);
    KeptBefore(s, id, i, j);
    var k1, k2 := |Without(s[..i], id)|, |Without(s[..j], id)|;
    assert Without(s, id)[k1] == s[i] && Without(s, id)[k2] == s[j];
  }

  /** Removing the same Id twice removes nothing more. */
  lemma {:induction false} WithoutIdempotent(s: seq<Listing>, id: string)
    ensures Without(Without(s, id), id) == Without(s, id)
  {
    if s != [] {
      WithoutIdempotent(s[1..], id);
      WithoutConcat(if s[0].Id == id then [] else [s[0]], Without(s[1..], id), id);
    }
  }

  /** Removing an Id that no listing carries changes nothing. */
  lemma {:induction false} WithoutAbsent(s: seq<Listing>, id: string)
    requires forall l :: l in s ==> l.Id != id
    ensures Without(s, id) == s
  {
    if s != [] {
      assert forall l :: l in s[1..] ==> l in s;
      WithoutAbsent(s[1..], id);
    }
  }

  /** Evicting an Id and then appending one listing with that Id leaves exactly one listing with it. */
  lemma ReplaceLeavesOne(s: seq<Listing>, l: Listing)
    ensures CountId(Without(s, l.Id) + [l], l.Id) == 1
  {
    WithoutRemovesAll(s, l.Id);
    CountIdConcat(Without(s, l.Id), [l], l.Id);
  }

  /** Ingesting the same batch twice holds every Id of the batch twice as often as once. */
  lemma DoubleIngestion(prior: seq<Listing>, batch: seq<StoredListing>, source: Origin, id: string)
    ensures CountId(prior + FromStoredAll(batch, source) + FromStoredAll(batch, source), id)
         == CountId(prior, id) + 2 * CountId(FromStoredAll(batch, source), id)
    ensures (exists c :: c in batch && c.Id == id) ==> CountId(FromStoredAll(batch, source), id) > 0
  {
    var x := FromStoredAll(batch, source);
    CountIdConcat(prior + x, x, id);
    CountIdConcat(prior, x, id);
    if c :| c in batch && c.Id == id {
      var i :| 0 <= i < |batch| && batch[i] == c;
      assert Stored(x[i]) == c;
      assert x[i] in x;
      CountIdPositive(x, id);
    }
  }
}
