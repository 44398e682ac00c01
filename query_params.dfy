/** `URLSearchParams` as the API routes use it: an ordered list of name/value
    pairs with `get`, `set` and `toString`. Percent-encoding is not modelled. */
module QueryParams {

  import opened Wrappers

  /** `URLSearchParams.get`: the value of the first entry under the name, or none
      when no entry has it. */
  function Lookup(entries: seq<(string, string)>, name: string): (r: Option<string>)
    ensures r.None? <==> forall i :: 0 <= i < |entries| ==> entries[i].0 != name
    ensures r.Some? ==> FirstUnder(entries, name, r.value)
  {
    if entries == [] then None
    else if entries[0].0 == name then Some(entries[0].1)
    else
      var rest := Lookup(entries[1..], name);
      assert rest.None? ==> forall i :: 1 <= i < |entries| ==> entries[i].0 != name by {
        if rest.None? {
          forall i | 1 <= i < |entries| ensures entries[i].0 != name {
            assert entries[1..][i - 1] == entries[i];
          }
        }
      }
      assert rest.Some? ==> FirstUnder(entries, name, rest.value) by {
        if rest.Some? {
          var k :| 0 <= k < |entries[1..]| && entries[1..][k] == (name, rest.value)
                   && forall j :: 0 <= j < k ==> entries[1..][j].0 != name;
          assert entries[k + 1] == (name, rest.value);
          forall j | 0 <= j < k + 1 ensures entries[j].0 != name {
            if j > 0 { assert entries[1..][j - 1] == entries[j]; }
          }
        }
      }
      rest
  }

  /** `(name, value)` is the first entry under `name`. */
  ghost predicate FirstUnder(entries: seq<(string, string)>, name: string, value: string) {
    exists i :: 0 <= i < |entries| && entries[i] == (name, value) && forall j :: 0 <= j < i ==> entries[j].0 != name
  }

  function Without(entries: seq<(string, string)>, name: string): (r: seq<(string, string)>)
    ensures Lookup(r, name).None?
    ensures forall m :: m != name ==> Lookup(r, m) == Lookup(entries, m)
  {
    if entries == [] then []
    else if entries[0].0 == name then Without(entries[1..], name)
    else [entries[0]] + Without(entries[1..], name)
  }

  function ReplaceFirst(entries: seq<(string, string)>, name: string, value: string): (r: seq<(string, string)>)
    ensures Lookup(entries, name).Some? ==> Lookup(r, name) == Some(value)
    ensures forall m :: m != name ==> Lookup(r, m) == Lookup(entries, m)
  {
    if entries == [] then []
    else if entries[0].0 == name then [(name, value)] + Without(entries[1..], name)
    else [entries[0]] + ReplaceFirst(entries[1..], name, value)
  }

  /** `URLSearchParams.set`: the first entry under the name takes the value and any
      later ones are removed; without one, the pair is appended. */
  function SetEntry(entries: seq<(string, string)>, name: string, value: string): seq<(string, string)> {
    if Lookup(entries, name).Some? then ReplaceFirst(entries, name, value) else entries + [(name, value)]
  }

  lemma LookupAppend(entries: seq<(string, string)>, name: string, value: string, m: string)
    requires Lookup(entries, name).None?
    ensures Lookup(entries + [(name, value)], m) == if m == name then Some(value) else Lookup(entries, m)
    decreases |entries|
  {
    if entries != [] {
      assert (entries + [(name, value)])[1..] == entries[1..] + [(name, value)];
      LookupAppend(entries[1..], name, value, m);
    }
  }

  /** After `set`, `get` of that name returns the new value and every other name is
      unaffected. */
  lemma SetThenGet(entries: seq<(string, string)>, name: string, value: string, m: string)
    ensures Lookup(SetEntry(entries, name, value), name) == Some(value)
    ensures m != name ==> Lookup(SetEntry(entries, name, value), m) == Lookup(entries, m)
  {
    if Lookup(entries, name).None? {
      LookupAppend(entries, name, value, name);
      LookupAppend(entries, name, value, m);
    }
  }

  /** `URLSearchParams.toString`, without percent-encoding. */
  function Serialize(entries: seq<(string, string)>): string {
    if entries == [] then ""
    else if |entries| == 1 then entries[0].0 + "=" + entries[0].1
    else entries[0].0 + "=" + entries[0].1 + "&" + Serialize(entries[1..])
  }

  /** A query value that `!params.get(name)` treats as present. */
  predicate Given(v: Option<string>) {
    v.Some? && v.value != ""
  }

  /** A `URLSearchParams` object, as a route reads and updates it. */
  class SearchParams {
    var entries: seq<(string, string)>

    constructor (entries: seq<(string, string)>)
      ensures this.entries == entries
    {
      this.entries := entries;
    }

    /** `get`: the value of the first entry under `name`, or none without one. */
    function Get(name: string): (r: Option<string>)
      reads this
      ensures r.None? <==> forall i :: 0 <= i < |entries| ==> entries[i].0 != name
      ensures r.Some? ==> FirstUnder(entries, name, r.value)
    {
      Lookup(entries, name)
    }

    method Set(name: string, value: string)
      modifies this
      ensures entries == SetEntry(old(entries), name, value)
      ensures Get(name) == Some(value)
    {
      entries := SetEntry(entries, name, value);
      SetThenGet(old(entries), name, value, name);
    }

    function ToString(): string
      reads this
    {
      Serialize(entries)
    }
  }
}
