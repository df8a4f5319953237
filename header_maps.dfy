/** The header dictionary both the tester and the chat build with
    `headers.forEach(h => { if (h.key && h.value) dict[h.key] = h.value; })`. */
module HeaderMaps {
  import opened WebhookTypes
  import opened Text

  const ContentTypeName := "Content-Type"
  const JsonMediaType := "application/json"

  /** `contentType?.includes('application/json')`: the response says its body is JSON. */
  predicate DeclaresJson(contentType: Option<string>): (b: bool)
    ensures b <==> contentType.Some? && exists i :: OccursAt(contentType.value, JsonMediaType, i)
  {
    contentType.Some? && Contains(contentType.value, JsonMediaType)
  }

  /** A content type that begins with `application/json`, parameters such as `; charset=utf-8`
      or none following, says JSON. */
  lemma JsonWithParameters(contentType: string)
    requires |JsonMediaType| <= |contentType| && contentType[..|JsonMediaType|] == JsonMediaType
    ensures DeclaresJson(Some(contentType))
  {
    assert OccursAt(contentType, JsonMediaType, 0);
  }

  /** A row is written into the dictionary when both its name and its value are non-empty (truthy). */
  predicate Usable(h: Header): (b: bool)
    ensures b <==> Truthy(Some(h.key)) && Truthy(Some(h.value))
  {
    h.key != "" && h.value != ""
  }

  /** The dictionary `m` after the usable rows of `hs` have been written into it, first to last. */
  function WithHeaders(m: map<string, string>, hs: seq<Header>): (r: map<string, string>)
    ensures forall k :: k in m ==> k in r
    ensures hs != [] && Usable(hs[|hs| - 1]) ==> hs[|hs| - 1].key in r && r[hs[|hs| - 1].key] == hs[|hs| - 1].value
  {
    if hs == [] then m
    else
      var before := WithHeaders(m, hs[..|hs| - 1]);
      var h := hs[|hs| - 1];
      if Usable(h) then before[h.key := h.value] else before
  }

  /** Some usable row of `hs` has the name `k`. */
  ghost predicate Names(hs: seq<Header>, k: string) {
    exists i :: 0 <= i < |hs| && Usable(hs[i]) && hs[i].key == k
  }

  /** Row `i` is the last usable row of `hs` with its name. */
  ghost predicate LastWithName(hs: seq<Header>, i: int) {
    0 <= i < |hs| && Usable(hs[i])
    && forall j :: i < j < |hs| && Usable(hs[j]) ==> hs[j].key != hs[i].key
  }

  /** The dictionary's names are those it started with plus the names of the usable rows. */
  lemma {:induction false} WithHeadersKeys(m: map<string, string>, hs: seq<Header>, k: string)
    ensures k in WithHeaders(m, hs) <==> k in m || Names(hs, k)
  {
    if hs != [] {
      var init := hs[..|hs| - 1];
      WithHeadersKeys(m, init, k);
      if Names(init, k) {
        var i :| 0 <= i < |init| && Usable(init[i]) && init[i].key == k;
        assert hs[i] == init[i];
      }
      if Names(hs, k) && !Names(init, k) {
        assert forall j :: 0 <= j < |init| ==> init[j] == hs[j];
        var i :| 0 <= i < |hs| && Usable(hs[i]) && hs[i].key == k;
        assert i == |hs| - 1;
      }
    }
  }

  /** For a duplicated name the last usable row wins. */
  lemma {:induction false} WithHeadersLastWins(m: map<string, string>, hs: seq<Header>, i: int)
    requires LastWithName(hs, i)
    ensures hs[i].key in WithHeaders(m, hs) && WithHeaders(m, hs)[hs[i].key] == hs[i].value
  {
    var init := hs[..|hs| - 1];
    if i < |hs| - 1 {
      assert init[i] == hs[i];
      assert LastWithName(init, i) by {
        forall j | i < j < |init| && Usable(init[j]) ensures init[j].key != init[i].key {
          assert init[j] == hs[j];
        }
      }
      WithHeadersLastWins(m, init, i);
    }
  }

  /** A name that no usable row carries keeps the value it started with. */
  lemma {:induction false} WithHeadersKeepsUnnamed(m: map<string, string>, hs: seq<Header>, k: string)
    requires k in m && !Names(hs, k)
    ensures k in WithHeaders(m, hs) && WithHeaders(m, hs)[k] == m[k]
  {
    if hs != [] {
      var init := hs[..|hs| - 1];
      assert !Names(init, k);
      WithHeadersKeepsUnnamed(m, init, k);
    }
  }

  /** No value written into the dictionary is empty. */
  lemma {:induction false} WithHeadersValuesNonEmpty(m: map<string, string>, hs: seq<Header>)
    requires forall k :: k in m ==> m[k] != ""
    ensures forall k :: k in WithHeaders(m, hs) ==> WithHeaders(m, hs)[k] != ""
  {
    if hs != [] {
      WithHeadersValuesNonEmpty(m, hs[..|hs| - 1]);
    }
  }

  /** Writing the rows into a dictionary that already holds entries overrides those entries with
      the rows' own dictionary: `m` is the base, the rows win on every name they carry. */
  lemma {:induction false} WithHeadersOverrides(m: map<string, string>, hs: seq<Header>)
    ensures WithHeaders(m, hs) == m + WithHeaders(map[], hs)
  {
    if hs != [] {
      WithHeadersOverrides(m, hs[..|hs| - 1]);
    }
  }

  /** The `forEach` loop itself: writes the usable rows of `hs` into a copy of `init`. */
  method BuildHeaderMap(init: map<string, string>, hs: seq<Header>) returns (m: map<string, string>)
    ensures m == WithHeaders(init, hs)
  {
    m := init;
    var i := 0;
    while i < |hs|
      invariant 0 <= i <= |hs|
      invariant m == WithHeaders(init, hs[..i])
    {
      var h := hs[i];
      assert hs[..i + 1][..i] == hs[..i];
      if h.key != "" && h.value != "" {
        m := m[h.key := h.value];
      }
      i := i + 1;
    }
    assert hs[..|hs|] == hs;
  }
}
