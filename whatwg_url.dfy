/**
 * The part of the WHATWG URL Standard that the sanitiser relies on.
 *
 * Parsing and serialising are left abstract: a `UrlParser` is any pair of
 * functions, supplied by the caller. What the core does to a parsed URL is
 * modelled on its attributes: it assigns `hostname` and `protocol` (whose
 * setter also clears a port equal to the new scheme's default port) and
 * deletes names from the query list (`URLSearchParams.delete`, section 6.2 of
 * the WHATWG URL Standard), which removes every tuple with that name.
 */
module WhatwgUrl {
  import opened Wrappers

  /** One name-value tuple of a URL's query list. */
  type Param = (string, string)

  /** The attributes of a parsed URL; `query` is the list behind `searchParams`. */
  datatype UrlRecord = UrlRecord(
    protocol: string,  // the scheme with its colon, as in "https:"
    username: string,
    password: string,
    hostname: string,
    port: string,
    pathname: string,
    query: seq<Param>,
    hash: string)

  /**
   * The runtime's URL parser (`new URL(s)`, with `URL.canParse(s)` true exactly
   * when `parse(s)` is `Some`) and serialiser (`url.toString()`).
   */
  datatype UrlParser = UrlParser(parse: string -> Option<UrlRecord>, serialize: UrlRecord -> string) {

    predicate CanParse(s: string) {
      parse(s).Some?
    }
  }

  /** The query list without the tuples whose name is in `names`, in their original order. */
  function Filtered(q: seq<Param>, names: set<string>): (r: seq<Param>)
    ensures |r| <= |q|
    ensures forall p :: p in r <==> p in q && p.0 !in names
  {
    if q == [] then [] else (if q[0].0 in names then [] else [q[0]]) + Filtered(q[1..], names)
  }

  /** Filtering distributes over concatenation: the kept tuples stay in order. */
  lemma {:induction false} FilteredAppend(a: seq<Param>, b: seq<Param>, names: set<string>)
    ensures Filtered(a + b, names) == Filtered(a, names) + Filtered(b, names)
  {
    if a == [] {
      assert a + b == b;
    } else {
      assert (a + b)[0] == a[0] && (a + b)[1..] == a[1..] + b;
      FilteredAppend(a[1..], b, names);
    }
  }

  /** Every repeat of a removed name goes; every other tuple keeps its multiplicity. */
  lemma {:induction false} FilteredCount(q: seq<Param>, names: set<string>, p: Param)
    ensures multiset(Filtered(q, names))[p] == if p.0 in names then 0 else multiset(q)[p]
  {
    if q != [] {
      FilteredCount(q[1..], names, p);
      assert q == [q[0]] + q[1..];
    }
  }

  /** Filtering by `a` and then by `b` is filtering by both at once. */
  lemma {:induction false} FilteredTwice(q: seq<Param>, a: set<string>, b: set<string>)
    ensures Filtered(Filtered(q, a), b) == Filtered(q, a + b)
  {
    if q != [] {
      FilteredTwice(q[1..], a, b);
      var head := if q[0].0 in a then [] else [q[0]];
      FilteredAppend(head, Filtered(q[1..], a), b);
    }
  }

  /** Filtering by a larger set after a smaller one is filtering by the larger one. */
  lemma FilteredMore(q: seq<Param>, a: set<string>, b: set<string>)
    requires a <= b
    ensures Filtered(Filtered(q, a), b) == Filtered(q, b)
  {
    FilteredTwice(q, a, b);
    assert a + b == b;
  }

  /** A list that holds no removed name is left as it is. */
  lemma {:induction false} FilteredNoop(q: seq<Param>, names: set<string>)
    requires forall i :: 0 <= i < |q| ==> q[i].0 !in names
    ensures Filtered(q, names) == q
  {
    if q != [] {
      FilteredNoop(q[1..], names);
    }
  }

  /**
   * `URLSearchParams.get(name)`: the value of the first tuple whose name is
   * `name`, or `None` (JavaScript `null`) when there is none.
   */
  function QueryGet(q: seq<Param>, name: string): (r: Option<string>)
    ensures r.None? <==> forall i :: 0 <= i < |q| ==> q[i].0 != name
    ensures r.Some? ==> exists i :: 0 <= i < |q| && q[i] == (name, r.value) && forall j :: 0 <= j < i ==> q[j].0 != name
  {
    if q == [] then None
    else if q[0].0 == name then Some(q[0].1)
    else
      var r := QueryGet(q[1..], name);
      assert r.Some? ==> exists i :: 0 <= i < |q| && q[i] == (name, r.value) && forall j :: 0 <= j < i ==> q[j].0 != name by {
        if r.Some? {
          var i :| 0 <= i < |q[1..]| && q[1..][i] == (name, r.value) && forall j :: 0 <= j < i ==> q[1..][j].0 != name;
          assert q[i + 1] == (name, r.value);
          assert forall j :: 0 <= j < i + 1 ==> q[j].0 != name by {
            forall j | 0 <= j < i + 1 ensures q[j].0 != name {
              if j > 0 { assert q[j] == q[1..][j - 1]; }
            }
          }
        }
      }
      r
  }

  /** A parsed URL object, whose attributes the sanitiser assigns in place. */
  class Url {
    var protocol: string
    var username: string
    var password: string
    var hostname: string
    var port: string
    var pathname: string
    var query: seq<Param>
    var hash: string

    /** The attributes of this URL as a value. */
    function Record(): UrlRecord
      reads this
    {
      UrlRecord(protocol, username, password, hostname, port, pathname, query, hash)
    }

    /** `new URL(s)` once the parser has produced `rec`. */
    constructor (rec: UrlRecord)
      ensures Record() == rec
    {
      protocol, username, password, hostname := rec.protocol, rec.username, rec.password, rec.hostname;
      port, pathname, query, hash := rec.port, rec.pathname, rec.query, rec.hash;
    }

    /** `searchParams.delete(name)`: removes every tuple named `name`; nothing else changes. */
    method Delete(name: string)
      modifies this
      ensures Record() == old(Record()).(query := Filtered(old(query), {name}))
    {
      var list := query;
      var kept: seq<Param> := [];
      var i := 0;
      while i < |list|
        invariant 0 <= i <= |list|
        invariant kept == Filtered(list[..i], {name})
        invariant unchanged(this)
      {
        assert list[..i + 1] == list[..i] + [list[i]];
        FilteredAppend(list[..i], [list[i]], {name});
        if list[i].0 != name {
          kept := kept + [list[i]];
        }
        i := i + 1;
      }
      assert list[..|list|] == list;
      query := kept;
    }
  }
}
