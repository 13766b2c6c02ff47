/**
 * copyHeaderForFrontend and copyHeaderForBackend: add every value of one
 * header multimap to another, the backend variant leaving out the two
 * conditional-request headers so that the backend cannot answer 304 with no
 * body to cache.
 */
module Headers {
  import opened Http

  const IfModifiedSince := "If-Modified-Since"
  const IfNoneMatch := "If-None-Match"

  /** Whether the values of `k` are copied: the backend copy drops the conditional headers. */
  predicate Kept(k: string, forBackend: bool)
  {
    !forBackend || (k != IfModifiedSince && k != IfNoneMatch)
  }

  /**
   * The header `dst` becomes once every kept value of `src` has been added
   * to it with Header.Add. A name of `src` with no values adds nothing, not
   * even the name.
   */
  function AddAll(dst: Header, src: Header, forBackend: bool): Header
  {
    map k | k in dst.Keys + src.Keys && (k in dst || (Kept(k, forBackend) && src[k] != [])) ::
      Values(dst, k) + (if Kept(k, forBackend) then Values(src, k) else [])
  }

  /** The part of `src` whose names are in `names`. */
  function Restrict(src: Header, names: set<string>): (r: Header)
    ensures r.Keys == src.Keys * names
    ensures forall k :: k in r ==> r[k] == src[k]
  {
    map k | k in src && k in names :: src[k]
  }

  /** Two headers with the same names and the same values under each name are equal. */
  lemma HeaderExt(a: Header, b: Header)
    requires forall j :: (j in a <==> j in b) && Values(a, j) == Values(b, j)
    ensures a == b
  {
    assert a.Keys == b.Keys;
    forall j | j in a ensures a[j] == b[j] {
      assert Values(a, j) == Values(b, j);
    }
  }

  /** AddAll name by name. */
  lemma AddAllAt(dst: Header, src: Header, forBackend: bool, j: string)
    ensures j in AddAll(dst, src, forBackend) <==> j in dst || (Kept(j, forBackend) && Values(src, j) != [])
    ensures Values(AddAll(dst, src, forBackend), j)
         == Values(dst, j) + (if Kept(j, forBackend) then Values(src, j) else [])
  {
  }

  lemma AddAllNoValues(dst: Header, s: Header, k: string, forBackend: bool)
    requires k !in s
    ensures AddAll(dst, s[k := []], forBackend) == AddAll(dst, s, forBackend)
  {
    forall j ensures (j in AddAll(dst, s[k := []], forBackend) <==> j in AddAll(dst, s, forBackend))
                  && Values(AddAll(dst, s[k := []], forBackend), j) == Values(AddAll(dst, s, forBackend), j)
    {
      AddAllAt(dst, s[k := []], forBackend, j);
      AddAllAt(dst, s, forBackend, j);
    }
    HeaderExt(AddAll(dst, s[k := []], forBackend), AddAll(dst, s, forBackend));
  }

  lemma AddAllOneMore(dst: Header, s: Header, k: string, vs: seq<string>, v: string, forBackend: bool)
    ensures AddAll(dst, s[k := vs + [v]], forBackend)
         == if Kept(k, forBackend) then HeaderAdd(AddAll(dst, s[k := vs], forBackend), k, v)
            else AddAll(dst, s[k := vs], forBackend)
  {
    var before := AddAll(dst, s[k := vs], forBackend);
    var after := AddAll(dst, s[k := vs + [v]], forBackend);
    var expected := if Kept(k, forBackend) then HeaderAdd(before, k, v) else before;
    forall j ensures (j in after <==> j in expected) && Values(after, j) == Values(expected, j) {
      AddAllAt(dst, s[k := vs], forBackend, j);
      AddAllAt(dst, s[k := vs + [v]], forBackend, j);
    }
    HeaderExt(after, expected);
  }

  /** One more value of `vv` added under `k`, as the inner loops do it. */
  lemma AddAllNextValue(dst: Header, s: Header, k: string, vv: seq<string>, i: nat, forBackend: bool)
    requires i < |vv|
    ensures AddAll(dst, s[k := vv[..i + 1]], forBackend)
         == if Kept(k, forBackend) then HeaderAdd(AddAll(dst, s[k := vv[..i]], forBackend), k, vv[i])
            else AddAll(dst, s[k := vv[..i]], forBackend)
  {
    assert vv[..i + 1] == vv[..i] + [vv[i]];
    AddAllOneMore(dst, s, k, vv[..i], vv[i], forBackend);
  }

  lemma AddAllToNothing(dst: Header, src: Header, forBackend: bool)
    ensures AddAll(dst, Restrict(src, {}), forBackend) == dst
  {
    forall j ensures (j in AddAll(dst, Restrict(src, {}), forBackend) <==> j in dst)
                  && Values(AddAll(dst, Restrict(src, {}), forBackend), j) == Values(dst, j)
    {
      AddAllAt(dst, Restrict(src, {}), forBackend, j);
    }
    HeaderExt(AddAll(dst, Restrict(src, {}), forBackend), dst);
  }

  lemma RestrictOneMore(src: Header, done: set<string>, k: string)
    requires k in src
    ensures Restrict(src, done)[k := src[k]] == Restrict(src, done + {k})
  {
    HeaderExt(Restrict(src, done)[k := src[k]], Restrict(src, done + {k}));
  }

  lemma RestrictAll(src: Header)
    ensures Restrict(src, src.Keys) == src
  {
    HeaderExt(Restrict(src, src.Keys), src);
  }

  /** The inner loop of copyHeaderForFrontend: Add each value of `vv` under `k`. */
  method AddEachValue(out: Header, k: string, vv: seq<string>, ghost dst: Header, ghost s: Header)
    returns (r: Header)
    requires out == AddAll(dst, s[k := []], false)
    ensures r == AddAll(dst, s[k := vv], false)
  {
    r := out;
    var i := 0;
    while i < |vv|
      invariant 0 <= i <= |vv|
      invariant r == AddAll(dst, s[k := vv[..i]], false)
    {
      AddAllNextValue(dst, s, k, vv, i, false);
      r := HeaderAdd(r, k, vv[i]);
      i := i + 1;
    }
    assert vv[..i] == vv;
  }

  /** The inner loop of copyHeaderForBackend: Add each value of `vv` under `k` unless `k` is a conditional name. */
  method AddEachKeptValue(out: Header, k: string, vv: seq<string>, ghost dst: Header, ghost s: Header)
    returns (r: Header)
    requires out == AddAll(dst, s[k := []], true)
    ensures r == AddAll(dst, s[k := vv], true)
  {
    r := out;
    var i := 0;
    while i < |vv|
      invariant 0 <= i <= |vv|
      invariant r == AddAll(dst, s[k := vv[..i]], true)
    {
      AddAllNextValue(dst, s, k, vv, i, true);
      if k != IfModifiedSince && k != IfNoneMatch {
        r := HeaderAdd(r, k, vv[i]);
      }
      i := i + 1;
    }
    assert vv[..i] == vv;
  }

  /**
   * copyHeaderForFrontend: for each name of `src`, in whatever order the map
   * yields them, Add each of its values to `dst`.
   */
  method CopyHeaderForFrontend(dst: Header, src: Header) returns (out: Header)
    ensures out == AddAll(dst, src, false)
  {
    out := dst;
    var todo := src.Keys;
    ghost var done: set<string> := {};
    AddAllToNothing(dst, src, false);
    while todo != {}
      invariant done + todo == src.Keys && done !! todo
      invariant out == AddAll(dst, Restrict(src, done), false)
      decreases todo
    {
      var k :| k in todo;
      AddAllNoValues(dst, Restrict(src, done), k, false);
      out := AddEachValue(out, k, src[k], dst, Restrict(src, done));
      RestrictOneMore(src, done, k);
      todo, done := todo - {k}, done + {k};
    }
    RestrictAll(src);
  }

  /**
   * copyHeaderForBackend: the same walk, except that values of
   * If-Modified-Since and If-None-Match are not added.
   */
  method CopyHeaderForBackend(dst: Header, src: Header) returns (out: Header)
    ensures out == AddAll(dst, src, true)
  {
    out := dst;
    var todo := src.Keys;
    ghost var done: set<string> := {};
    AddAllToNothing(dst, src, true);
    while todo != {}
      invariant done + todo == src.Keys && done !! todo
      invariant out == AddAll(dst, Restrict(src, done), true)
      decreases todo
    {
      var k :| k in todo;
      AddAllNoValues(dst, Restrict(src, done), k, true);
      out := AddEachKeptValue(out, k, src[k], dst, Restrict(src, done));
      RestrictOneMore(src, done, k);
      todo, done := todo - {k}, done + {k};
    }
    RestrictAll(src);
  }

  /** The frontend copy only appends: what `dst` held under each name stays first, in order. */
  lemma FrontendCopyAppends(dst: Header, src: Header, k: string)
    ensures Values(AddAll(dst, src, false), k) == Values(dst, k) + Values(src, k)
  {
  }

  /**
   * The backend copy keeps every value of every other name, in order, and
   * adds nothing under the two conditional names.
   */
  lemma BackendCopyFilters(dst: Header, src: Header, k: string)
    ensures Kept(k, true) ==> Values(AddAll(dst, src, true), k) == Values(dst, k) + Values(src, k)
    ensures !Kept(k, true) ==> Values(AddAll(dst, src, true), k) == Values(dst, k)
  {
  }

  /** Into an empty header, the backend copy never yields a conditional header. */
  lemma BackendCopyHasNoConditionals(src: Header)
    ensures IfModifiedSince !in AddAll(map[], src, true)
    ensures IfNoneMatch !in AddAll(map[], src, true)
  {
  }

  /** The backend copy is the frontend copy of `src` without the two conditional names. */
  lemma BackendCopyIsFilteredFrontendCopy(dst: Header, src: Header)
    ensures AddAll(dst, src, true) == AddAll(dst, src - {IfModifiedSince, IfNoneMatch}, false)
  {
    var filtered := src - {IfModifiedSince, IfNoneMatch};
    forall j ensures (j in AddAll(dst, src, true) <==> j in AddAll(dst, filtered, false))
                  && Values(AddAll(dst, src, true), j) == Values(AddAll(dst, filtered, false), j)
    {
      AddAllAt(dst, src, true, j);
      AddAllAt(dst, filtered, false, j);
    }
    HeaderExt(AddAll(dst, src, true), AddAll(dst, filtered, false));
  }
}
