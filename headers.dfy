/** Header sets, the allow-list that decides which inbound headers are forwarded, and the
    two loops of the handler that fill a header set value by value. */
module Headers {
  import opened Text

  /** An `http.Header`: each name with its values in order. */
  type Header = map<string, seq<string>>

  /** `h[name]`, the empty list for an absent name. */
  function Get(h: Header, name: string): seq<string> {
    if name in h then h[name] else []
  }

  /** `base` after every value of `extra` has been added under its name. */
  function Appended(base: Header, extra: Header): Header {
    map name | name in base.Keys + extra.Keys :: Get(base, name) + Get(extra, name)
  }

  /** The allow-list test of the handler: the lower-cased name starts with `x-`. */
  predicate IsCustomHeader(name: string) {
    HasPrefix(ToLower(name), "x-")
  }

  /** The inbound headers the proxy forwards: custom headers with at least one value,
      each with all of its values. */
  function CustomHeaders(h: Header): Header {
    map name | name in h && IsCustomHeader(name) && h[name] != [] :: h[name]
  }

  /** Every header that has at least one value (what a value-by-value copy can reproduce). */
  function Populated(h: Header): Header {
    map name | name in h && h[name] != [] :: h[name]
  }

  /** A name passes the allow-list exactly when it is `x-` or `X-` followed by anything. */
  lemma CustomHeaderIff(name: string)
    ensures IsCustomHeader(name) <==> |name| >= 2 && (name[0] == 'x' || name[0] == 'X') && name[1] == '-'
  {
    if |name| >= 2 {
      ToLowerAt(name, 0);
      ToLowerAt(name, 1);
      assert ToLower(name)[..2] == [LowerChar(name[0]), LowerChar(name[1])];
    } else if |name| == 1 {
      ToLowerAt(name, 0);
    }
  }

  /** The outbound set holds exactly the inbound headers whose name starts with `x-` in
      any case and that carry a value, each with its values unchanged and in order. */
  lemma ForwardedIff(h: Header, name: string)
    ensures name in CustomHeaders(h) <==>
              name in h && h[name] != [] && |name| >= 2 && (name[0] == 'x' || name[0] == 'X') && name[1] == '-'
    ensures name in CustomHeaders(h) ==> CustomHeaders(h)[name] == h[name]
  {
    CustomHeaderIff(name);
  }

  /** Adding to an empty header set gives back exactly what was added. */
  lemma AppendedToEmpty(extra: Header)
    ensures Appended(map[], extra) == extra
  {
    var r := Appended(map[], extra);
    assert r.Keys == extra.Keys;
    forall name | name in extra
      ensures r[name] == extra[name]
    {
      assert Get(map[], name) == [];
      assert [] + extra[name] == extra[name];
    }
  }

  /** Adding nothing leaves a header set as it was. */
  lemma AppendedNothing(base: Header)
    ensures Appended(base, map[]) == base
  {
    var r := Appended(base, map[]);
    assert r.Keys == base.Keys;
    forall name | name in base
      ensures r[name] == base[name]
    {
      assert Get(map[], name) == [];
      assert base[name] + [] == base[name];
    }
  }

  /** The header set an `http.Request` or a `ResponseWriter` exposes through `Header()`. */
  class HeaderMap {
    var values: Header

    constructor ()
      ensures values == map[]
    {
      values := map[];
    }

    /** `Header.Add`: appends one value under `name`. */
    method Add(name: string, value: string)
      modifies this
      ensures values == old(values)[name := Get(old(values), name) + [value]]
    {
      values := values[name := Get(values, name) + [value]];
    }

    /** `Header.Set`: replaces the values under `name` by one value. */
    method Set(name: string, value: string)
      modifies this
      ensures values == old(values)[name := [value]]
    {
      values := values[name := [value]];
    }

    /** `Header.Del`: removes `name`. */
    method Del(name: string)
      modifies this
      ensures values == old(values) - {name}
    {
      values := values - {name};
    }
  }

  /** Adds each value of one header name, in order, with `Header.Add`. */
  method AddEach(out: HeaderMap, name: string, vs: seq<string>)
    modifies out
    ensures out.values == if vs == [] then old(out.values)
                          else old(out.values)[name := Get(old(out.values), name) + vs]
  {
    ghost var start := out.values;
    ghost var prior := Get(start, name);
    var i := 0;
    while i < |vs|
      invariant 0 <= i <= |vs|
      invariant out.values == if i == 0 then start else start[name := prior + vs[..i]]
    {
      assert vs[..i] + [] == vs[..i] && prior + [] == prior;
      ghost var current := out.values;
      assert Get(current, name) == prior + vs[..i];
      out.Add(name, vs[i]);
      assert out.values == current[name := prior + vs[..i] + [vs[i]]];
      assert vs[..i + 1] == vs[..i] + [vs[i]];
      assert prior + vs[..i] + [vs[i]] == prior + vs[..i + 1];
      if i > 0 {
        assert current[name := prior + vs[..i + 1]] == start[name := prior + vs[..i + 1]];
      }
      assert out.values == start[name := prior + vs[..i + 1]];
      i := i + 1;
    }
    assert vs[..|vs|] == vs;
  }

  /** Handling one more name: a kept name with values joins the appended part, with its
      values after those already in `base`; any other name leaves it as it was. */
  lemma AppendedStep(base: Header, h: Header, done: set<string>, name: string, all: bool)
    requires name in h && name !in done
    ensures
      var before := Appended(base, KeptPart(h, done, all));
      var after := Appended(base, KeptPart(h, done + {name}, all));
      after == if Kept(name, all) && h[name] != [] then before[name := Get(base, name) + h[name]] else before
  {
    var e := KeptPart(h, done, all);
    if Kept(name, all) && h[name] != [] {
      assert KeptPart(h, done + {name}, all) == e[name := h[name]];
      AppendedUpdate(base, e, name, h[name]);
    } else {
      assert KeptPart(h, done + {name}, all) == e;
    }
  }

  /** Adding a name that is not yet in `extra` puts its values after those in `base` and
      leaves every other name as it was. */
  lemma AppendedUpdate(base: Header, extra: Header, name: string, vs: seq<string>)
    requires name !in extra
    ensures Appended(base, extra[name := vs]) == Appended(base, extra)[name := Get(base, name) + vs]
  {
    var after := Appended(base, extra[name := vs]);
    var expected := Appended(base, extra)[name := Get(base, name) + vs];
    assert after.Keys == expected.Keys;
    forall k | k in after
      ensures after[k] == expected[k]
    {
      if k != name {
        assert Get(extra[name := vs], k) == Get(extra, k);
      }
    }
  }

  /** Whether a copy keeps `name`: every name when `all`, custom names otherwise. */
  predicate Kept(name: string, all: bool) {
    all || IsCustomHeader(name)
  }

  /** The headers of `h` with names in `done` that a copy keeps. */
  function KeptPart(h: Header, done: set<string>, all: bool): Header {
    map name | name in h && name in done && Kept(name, all) && h[name] != [] :: h[name]
  }

  /** The loop over the header names of `h`, visited in arbitrary order as Go's map range
      does, adding every value of each kept name to `out`. */
  method CopyValues(h: Header, out: HeaderMap, all: bool)
    modifies out
    ensures out.values == Appended(old(out.values), KeptPart(h, h.Keys, all))
  {
    ghost var base := out.values;
    var pending := h.Keys;
    ghost var done: set<string> := {};
    assert KeptPart(h, done, all) == map[];
    AppendedNothing(base);
    while pending != {}
      invariant pending <= h.Keys && done == h.Keys - pending
      invariant out.values == Appended(base, KeptPart(h, done, all))
      decreases pending
    {
      var name :| name in pending;
      AppendedStep(base, h, done, name, all);
      ghost var before := out.values;
      assert Get(before, name) == Get(base, name);
      if Kept(name, all) {
        AddEach(out, name, h[name]);
      }
      assert out.values == Appended(base, KeptPart(h, done + {name}, all));
      VisitOne(h.Keys, pending, done, name);
      pending := pending - {name};
      done := done + {name};
    }
    assert done == h.Keys;
  }

  /** Moving one name from the pending names to the visited ones keeps them partitioning `all`. */
  lemma VisitOne(all: set<string>, pending: set<string>, done: set<string>, name: string)
    requires pending <= all && done == all - pending && name in pending
    ensures pending - {name} <= all && done + {name} == all - (pending - {name})
  {
  }

  /** The request-side loop: only headers passing the allow-list are added. */
  method ForwardCustomHeaders(inbound: Header, out: HeaderMap)
    modifies out
    ensures out.values == Appended(old(out.values), CustomHeaders(inbound))
  {
    CopyValues(inbound, out, false);
    assert KeptPart(inbound, inbound.Keys, false) == CustomHeaders(inbound);
  }

  /** The response-side loop: every upstream header is added. */
  method CopyHeaders(src: Header, out: HeaderMap)
    modifies out
    ensures out.values == Appended(old(out.values), Populated(src))
  {
    CopyValues(src, out, true);
    assert KeptPart(src, src.Keys, true) == Populated(src);
  }
}
