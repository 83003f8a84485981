/** The query string of a request URL, as the `URLSearchParams` of the
    WHATWG URL standard sees it: an ordered list of name/value pairs in which a
    name may repeat. */
module Query {
  import opened Wrappers
  import Text

  type Pair = (string, string)

  /** `a` is `b` with some elements dropped and the rest kept in order. */
  ghost predicate Subsequence<T>(a: seq<T>, b: seq<T>)
    decreases |b|
  {
    if |a| == 0 then true
    else if |b| == 0 then false
    else (a[0] == b[0] && Subsequence(a[1..], b[1..])) || Subsequence(a, b[1..])
  }

  /** The number of pairs named `key`. */
  function CountKey(q: seq<Pair>, key: string): (n: nat)
    ensures n <= |q|
    ensures n == 0 <==> forall i :: 0 <= i < |q| ==> q[i].0 != key
  {
    if |q| == 0 then 0
    else (if q[0].0 == key then 1 else 0) + CountKey(q[1..], key)
  }

  /** `searchParams.get(key)`: the value of the first pair named `key`. */
  function Get(q: seq<Pair>, key: string): (r: Option<string>)
    ensures r.None? <==> forall i :: 0 <= i < |q| ==> q[i].0 != key
    ensures r.Some? ==> exists i :: 0 <= i < |q| && q[i] == (key, r.value)
                                    && forall j :: 0 <= j < i ==> q[j].0 != key
  {
    if |q| == 0 then None
    else if q[0].0 == key then
      assert q[0] == (key, q[0].1);
      Some(q[0].1)
    else
      var r := Get(q[1..], key);
      assert r.Some? ==> exists i :: 1 <= i < |q| && q[i] == (key, r.value)
                                     && forall j :: 0 <= j < i ==> q[j].0 != key by {
        if r.Some? {
          var i :| 0 <= i < |q[1..]| && q[1..][i] == (key, r.value)
                   && forall j :: 0 <= j < i ==> q[1..][j].0 != key;
          assert q[i + 1] == (key, r.value);
          assert forall j :: 0 <= j < i + 1 ==> q[j].0 != key by {
            forall j | 0 <= j < i + 1 ensures q[j].0 != key {
              if j > 0 { assert q[j] == q[1..][j - 1]; }
            }
          }
        }
      }
      r
  }

  /** `searchParams.delete(key)`: every pair named `key` removed, the others
      kept in their order. */
  function Delete(q: seq<Pair>, key: string): (r: seq<Pair>)
    ensures forall i :: 0 <= i < |r| ==> r[i].0 != key
    ensures forall p :: p in q && p.0 != key ==> p in r
    ensures |r| == |q| - CountKey(q, key)
    ensures Subsequence(r, q)
  {
    if |q| == 0 then []
    else if q[0].0 == key then Delete(q[1..], key)
    else
      var rest := Delete(q[1..], key);
      assert ([q[0]] + rest)[1..] == rest;
      [q[0]] + rest
  }

  /** The pairs joined as `name=value` with `&`; percent-encoding is not modelled. */
  function Render(q: seq<Pair>): string
  {
    if |q| == 0 then ""
    else if |q| == 1 then q[0].0 + "=" + q[0].1
    else q[0].0 + "=" + q[0].1 + "&" + Render(q[1..])
  }

  /** `url.search`: empty when there are no pairs, otherwise `?` and the pairs. */
  function Search(q: seq<Pair>): (s: string)
    ensures s == "" <==> |q| == 0
    ensures s != "" ==> s[0] == '?'
  {
    if |q| == 0 then "" else "?" + Render(q)
  }

  /** The query string holds a `?` exactly when it is non-empty; this is the
      test the gate uses to choose between `&` and `?` when it appends. */
  lemma SearchHasMarkIffNonEmpty(q: seq<Pair>)
    ensures Text.Contains(Search(q), "?") <==> |q| > 0
  {
    if |q| > 0 {
      assert Search(q)[0..1] == "?";
      Text.OccurrenceContains(Search(q), "?", 0);
    }
  }

  /** A single pair renders as `?name=value`. */
  lemma SearchSingle(q: seq<Pair>)
    requires |q| == 1
    ensures Search(q) == "?" + q[0].0 + "=" + q[0].1
  {
  }

  /** Appending one pair to a non-empty list appends `&name=value` to its rendering. */
  lemma {:induction false} RenderAppend(q: seq<Pair>, p: Pair)
    requires |q| > 0
    ensures Render(q + [p]) == Render(q) + "&" + p.0 + "=" + p.1
  {
    if |q| == 1 {
      assert (q + [p])[1..] == [p];
    } else {
      assert (q + [p])[1..] == q[1..] + [p];
      RenderAppend(q[1..], p);
    }
  }

  /** Appending one pair to the query appends `?name=value` or `&name=value`
      to the query string, depending on whether it was empty. */
  lemma SearchAppend(q: seq<Pair>, p: Pair)
    ensures Search(q + [p]) == Search(q) + (if |q| > 0 then "&" else "?") + p.0 + "=" + p.1
  {
    if |q| > 0 {
      var r := Render(q);
      RenderAppend(q, p);
      assert "?" + (r + "&" + p.0 + "=" + p.1) == "?" + r + "&" + p.0 + "=" + p.1;
    } else {
      assert q + [p] == [p];
    }
  }

  /** After `delete(key)` no pair named `key` is left for `get(key)` to find. */
  lemma DeletedKeyIsAbsent(q: seq<Pair>, key: string)
    ensures Get(Delete(q, key), key).None?
  {
  }

  /** `delete(key)` does not change what `get` returns for any other name. */
  lemma {:induction false} DeleteKeepsOtherKeys(q: seq<Pair>, key: string, other: string)
    requires other != key
    ensures Get(Delete(q, key), other) == Get(q, other)
  {
    if |q| > 0 {
      DeleteKeepsOtherKeys(q[1..], key, other);
      if q[0].0 != key {
        assert Delete(q, key)[1..] == Delete(q[1..], key);
      }
    }
  }

  /** Deleting twice is deleting once. */
  lemma {:induction false} DeleteIdempotent(q: seq<Pair>, key: string)
    ensures Delete(Delete(q, key), key) == Delete(q, key)
  {
    if |q| > 0 {
      DeleteIdempotent(q[1..], key);
      if q[0].0 != key {
        assert Delete(q, key)[1..] == Delete(q[1..], key);
      }
    }
  }
}
