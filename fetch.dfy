/** The parts of the Fetch API that the worker reads and writes: header
    collections, the `Headers` object that `set` updates in place, and the
    inbound request. */
module Fetch {

  /** A header collection, keyed by the stored name. The platform stores names
      in lower case; the type does not enforce that, and every lookup goes
      through `Get`, which lower-cases the name it is asked for. */
  type HeaderMap = map<string, string>

  function LowerChar(c: char): char {
    if 'A' <= c <= 'Z' then (c as int + 32) as char else c
  }

  /** ASCII lower case, the normalisation the Fetch API applies to header names. */
  function Lower(s: string): (r: string)
    ensures |r| == |s|
    ensures forall i :: 0 <= i < |s| ==> r[i] == LowerChar(s[i])
  {
    seq(|s|, i requires 0 <= i < |s| => LowerChar(s[i]))
  }

  /** `t` is the lower-case form of `s` when it agrees with it character by character. */
  lemma LowerMatches(s: string, t: string)
    requires |s| == |t|
    requires forall i :: 0 <= i < |s| ==> LowerChar(s[i]) == t[i]
    ensures Lower(s) == t
  {
  }

  /** `headers.get(name)`: the lookup ignores the case of `name`. A missing
      header (null) and an empty value are both falsy in the worker, so both
      are returned as "". */
  function Get(h: HeaderMap, name: string): (v: string)
    ensures Lower(name) in h ==> v == h[Lower(name)]
    ensures Lower(name) !in h ==> v == ""
  {
    if Lower(name) in h then h[Lower(name)] else ""
  }

  /** `headers.get` ignores case: two names that lower-case alike read the same value. */
  lemma GetIgnoresCase(h: HeaderMap, a: string, b: string)
    requires Lower(a) == Lower(b)
    ensures Get(h, a) == Get(h, b)
  {
  }

  /** Asking for a name already in lower case reads what asking for the name itself reads. */
  lemma {:induction false} GetOfLowered(h: HeaderMap, name: string)
    ensures Get(h, Lower(name)) == Get(h, name)
  {
    assert Lower(Lower(name)) == Lower(name);
  }

  /** JavaScript truthiness of a header value. */
  predicate Truthy(v: string) {
    v != ""
  }

  /** The Fetch API's `Headers` object, whose `set` replaces a value in place. */
  class Headers {
    var entries: HeaderMap

    /** `new Response(body, init)` copies the headers of `init` into a fresh object. */
    constructor (init: HeaderMap)
      ensures entries == init
    {
      entries := init;
    }

    /** `headers.set(name, value)`: the entry under the normalised name is
        replaced; lookups of every other name see what they saw before. */
    method Set(name: string, value: string)
      modifies this
      ensures entries == old(entries)[Lower(name) := value]
      ensures Get(entries, name) == value
      ensures forall n :: Lower(n) != Lower(name) ==> Get(entries, n) == Get(old(entries), n)
    {
      entries := entries[Lower(name) := value];
    }
  }

  /** The inbound request, reduced to what the worker looks at: its method (`verb`),
      the parts of its URL, and its headers. */
  datatype Request = Request(verb: string, origin: string, pathname: string, search: string, headers: HeaderMap)
}
