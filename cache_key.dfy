/**
 * The request fingerprint the decision cache is keyed by. The query and header maps of
 * the source are ordered maps, so a key is a plain value whose equality is structural:
 * two keys are equal exactly when all six components are.
 */
module CacheKeys {

  /** One query parameter or header: name and value. */
  type Entry = (string, string)

  datatype CacheKey = CacheKey(
    originalUrl: string,
    httpMethod: string,
    query: map<string, string>,
    headers: map<string, string>,
    body: string,
    sourceIp: string)

  /**
   * The ordered map obtained by inserting `entries` one after the other, as collecting
   * an iterator of pairs into an ordered map does (a later pair for a name already
   * present replaces the earlier value).
   */
  function FromEntries(entries: seq<Entry>): map<string, string>
  {
    if entries == [] then map[]
    else FromEntries(entries[..|entries| - 1])[entries[|entries| - 1].0 := entries[|entries| - 1].1]
  }

  /** No name occurs twice in `entries`. */
  predicate DistinctNames(entries: seq<Entry>)
  {
    forall i, j :: 0 <= i < j < |entries| ==> entries[i].0 != entries[j].0
  }

  /** The key built from request components, with query and headers given as entry sequences. */
  function BuildKey(originalUrl: string, httpMethod: string, query: seq<Entry>, headers: seq<Entry>,
                    body: string, sourceIp: string): CacheKey
  {
    CacheKey(originalUrl, httpMethod, FromEntries(query), FromEntries(headers), body, sourceIp)
  }

  /** Keys are equal exactly when all six components are equal. */
  lemma KeyEqualityIsStructural(a: CacheKey, b: CacheKey)
    ensures a == b <==>
              && a.originalUrl == b.originalUrl && a.httpMethod == b.httpMethod
              && a.query == b.query && a.headers == b.headers
              && a.body == b.body && a.sourceIp == b.sourceIp
  {
  }

  /**
   * With distinct names, the map holds exactly the inserted names, each bound to the
   * value inserted for it, whatever the insertion order.
   */
  lemma {:induction false} FromEntriesContents(entries: seq<Entry>)
    requires DistinctNames(entries)
    ensures forall name :: name in FromEntries(entries) <==> exists i :: 0 <= i < |entries| && entries[i].0 == name
    ensures forall i :: 0 <= i < |entries| ==> FromEntries(entries)[entries[i].0] == entries[i].1
  {
    if entries != [] {
      var init := entries[..|entries| - 1];
      var last := entries[|entries| - 1];
      assert DistinctNames(init) by {
        forall i, j | 0 <= i < j < |init| ensures init[i].0 != init[j].0 {
          assert init[i] == entries[i] && init[j] == entries[j];
        }
      }
      FromEntriesContents(init);
      forall name ensures name in FromEntries(entries) <==> exists i :: 0 <= i < |entries| && entries[i].0 == name {
        if name in FromEntries(init) {
          var i :| 0 <= i < |init| && init[i].0 == name;
          assert entries[i].0 == name;
        }
        if exists i :: 0 <= i < |entries| && entries[i].0 == name {
          var i :| 0 <= i < |entries| && entries[i].0 == name;
          if i < |init| {
            assert init[i].0 == name;
          }
        }
      }
      forall i | 0 <= i < |entries| ensures FromEntries(entries)[entries[i].0] == entries[i].1 {
        if i < |init| {
          assert init[i] == entries[i];
          assert entries[i].0 != last.0;
        }
      }
    }
  }

  /**
   * Two entry sequences with distinct names that hold the same entries, in any order,
   * give the same ordered map.
   */
  lemma FromEntriesOrderIndependent(a: seq<Entry>, b: seq<Entry>)
    requires DistinctNames(a) && DistinctNames(b)
    requires forall e :: e in a <==> e in b
    ensures FromEntries(a) == FromEntries(b)
  {
    FromEntriesContents(a);
    FromEntriesContents(b);
    var ma, mb := FromEntries(a), FromEntries(b);
    forall name | name in ma ensures name in mb && ma[name] == mb[name] {
      var i :| 0 <= i < |a| && a[i].0 == name;
      assert a[i] in b;
      var j :| 0 <= j < |b| && b[j] == a[i];
      assert ma[name] == a[i].1 && mb[name] == b[j].1;
    }
    forall name | name in mb ensures name in ma {
      var j :| 0 <= j < |b| && b[j].0 == name;
      assert b[j] in a;
      var i :| 0 <= i < |a| && a[i] == b[j];
    }
  }

  /**
   * Two requests whose query parameters and headers arrive in different orders but are
   * otherwise the same give the same key.
   */
  lemma KeyIgnoresArrivalOrder(originalUrl: string, httpMethod: string, q1: seq<Entry>, q2: seq<Entry>,
                               h1: seq<Entry>, h2: seq<Entry>, body: string, sourceIp: string)
    requires DistinctNames(q1) && DistinctNames(q2) && DistinctNames(h1) && DistinctNames(h2)
    requires forall e :: e in q1 <==> e in q2
    requires forall e :: e in h1 <==> e in h2
    ensures BuildKey(originalUrl, httpMethod, q1, h1, body, sourceIp) == BuildKey(originalUrl, httpMethod, q2, h2, body, sourceIp)
  {
    FromEntriesOrderIndependent(q1, q2);
    FromEntriesOrderIndependent(h1, h2);
  }
}
