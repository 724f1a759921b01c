/** `mapWorkflowResultToJudge` of the API client: the judge workflow's raw
    result, whose `outputs.text` is either an object of named sections or a
    plain string, turned into a `JudgeResponse` with an ordered list of
    sections, a `《…》` title and a share summary; or `null` when the output
    has neither shape. */
module WorkflowMapping {
  import opened Wrappers
  import opened JsString
  import opened JsValue
  import opened Types

  /** The sections that always come first, in this order. */
  const SECTION_KEYS: seq<string> := ["案件回顾", "情感剖析", "温柔裁定", "最终判决"]
  const DEFAULT_TITLE: string := "爱情宇宙法庭·判决书"
  const FULL_TEXT: string := "判决全文"

  // ---------------------------------------------------------------------
  // The title pattern /《([^》]+)》/

  /** A match of `《[^》]+》` occupying `s[i..j+1]`. */
  predicate TitleAt(s: string, i: int, j: int) {
    0 <= i && i + 1 < j < |s| && s[i] == '《' && s[j] == '》'
    && forall k :: i < k < j ==> s[k] != '》'
  }

  /** The first `》` at or after `from`, or `|s|`. */
  function NextClose(s: string, from: nat): (r: nat)
    requires from <= |s|
    ensures from <= r <= |s|
    ensures r < |s| ==> s[r] == '》'
    ensures forall k :: from <= k < r ==> s[k] != '》'
    decreases |s| - from
  {
    if from == |s| || s[from] == '》' then from else NextClose(s, from + 1)
  }

  /** The leftmost match at or after `from`, as the positions of its brackets:
      what a regex engine finds, since `[^》]+` can only stop at the first `》`. */
  function FirstTitle(s: string, from: nat): (r: Option<(nat, nat)>)
    ensures r.Some? ==> from <= r.value.0 && TitleAt(s, r.value.0, r.value.1)
    ensures r.Some? ==> forall i, j :: from <= i < r.value.0 ==> !TitleAt(s, i, j)
    ensures r.None? ==> forall i, j :: from <= i ==> !TitleAt(s, i, j)
    decreases |s| - from
  {
    if from >= |s| then None
    else if s[from] == '《' && NextClose(s, from + 1) < |s| && from + 1 < NextClose(s, from + 1) then
      Some((from, NextClose(s, from + 1)))
    else
      var r := FirstTitle(s, from + 1);
      forall j ensures !TitleAt(s, from, j) {
        var c := NextClose(s, from + 1);
        if s[from] == '《' && c == from + 1 && from + 1 < j < |s| {
          assert s[from + 1] == '》';
        }
      }
      r
  }

  /** `/《[^》]+》/.test(s)` */
  predicate HasTitle(s: string) {
    FirstTitle(s, 0).Some?
  }

  /** `s.match(/《([^》]+)》/)![0]`, the whole match, brackets included. */
  function TitleMatch(s: string): string
    requires HasTitle(s)
  {
    var (i, j) := FirstTitle(s, 0).value;
    s[i..j + 1]
  }

  /** `《${m[1]}》`: the captured group put back between brackets. */
  function TitleFromGroup(s: string): string
    requires HasTitle(s)
  {
    var (i, j) := FirstTitle(s, 0).value;
    "《" + s[i + 1..j] + "》"
  }

  /** The string branch rebuilds the title from the group; the object branch
      takes the whole match. Both give the same text. */
  lemma GroupTitleIsMatch(s: string)
    requires HasTitle(s)
    ensures TitleFromGroup(s) == TitleMatch(s)
  {
    var (i, j) := FirstTitle(s, 0).value;
    assert s[i..j + 1] == [s[i]] + s[i + 1..j] + [s[j]];
  }

  // ---------------------------------------------------------------------
  // Locating the output text and the case id

  /** `wf?.data?.outputs ?? wf?.outputs` */
  function OutputsOf(wf: Json): Json {
    Coalesce(Get(Get(wf, "data"), "outputs"), Get(wf, "outputs"))
  }

  /** `outputs?.text` */
  function TextOf(wf: Json): Json {
    Get(OutputsOf(wf), "text")
  }

  /** `String(wf?.workflow_run_id || wf?.task_id || wf?.data?.id || '')` */
  function CaseIdOf(wf: Json): string {
    ToStr(Or(Or(Or(Get(wf, "workflow_run_id"), Get(wf, "task_id")), Get(Get(wf, "data"), "id")), Str("")))
  }

  /** `text && typeof text === 'object'` */
  predicate IsObjectLike(v: Json) {
    v.Obj? || v.Arr?
  }

  // ---------------------------------------------------------------------
  // The object branch

  /** No two orders share a kind. */
  predicate DistinctKinds(orders: seq<Order>) {
    forall i, j :: 0 <= i < j < |orders| ==> orders[i].kind != orders[j].kind
  }

  predicate HasKind(orders: seq<Order>, k: string) {
    exists i :: 0 <= i < |orders| && orders[i].kind == k
  }

  /** `k` is an own property among `entries`. */
  predicate HasKey(entries: seq<(string, Json)>, k: string) {
    exists i :: 0 <= i < |entries| && entries[i].0 == k
  }

  /** The first loop: one order for each of `keys` whose value is truthy. */
  function SectionOrders(text: Json, keys: seq<string>): seq<Order> {
    if keys == [] then []
    else
      var k := keys[|keys| - 1];
      var v := Get(text, k);
      SectionOrders(text, keys[..|keys| - 1]) + (if Truthy(v) then [Order(k, ToStr(v), None)] else [])
  }

  /** The second loop: one order for every own property outside the fixed
      sections, whatever its value. */
  function ExtraOrders(entries: seq<(string, Json)>): seq<Order> {
    if entries == [] then []
    else
      var (k, v) := entries[|entries| - 1];
      ExtraOrders(entries[..|entries| - 1]) + (if k in SECTION_KEYS then [] else [Order(k, ToStr(v), None)])
  }

  function ObjectOrders(text: Json): seq<Order> {
    SectionOrders(text, SECTION_KEYS) + ExtraOrders(OwnEntries(text))
  }

  predicate Titled(v: Json) {
    v.Str? && HasTitle(v.s)
  }

  /** The title scan: the first property whose value is a string holding a
      title, or -1. */
  function TitleEntry(entries: seq<(string, Json)>): (r: int)
    ensures -1 <= r < |entries|
    ensures r >= 0 ==> Titled(entries[r].1)
    ensures forall i :: 0 <= i < |entries| && (r == -1 || i < r) ==> !Titled(entries[i].1)
  {
    if entries == [] then -1
    else
      var p := TitleEntry(entries[..|entries| - 1]);
      if p >= 0 then p
      else if Titled(entries[|entries| - 1].1) then |entries| - 1
      else -1
  }

  function ObjectTitle(text: Json): string {
    var entries := OwnEntries(text);
    var t := TitleEntry(entries);
    if t >= 0 then TitleMatch(entries[t].1.s) else DEFAULT_TITLE
  }

  /** `(text['最终判决'] || text['温柔裁定'] || '') || undefined` */
  function ShareOf(text: Json): Option<Json> {
    var share := Or(Or(Get(text, "最终判决"), Get(text, "温柔裁定")), Str(""));
    if Truthy(share) then Some(share) else None
  }

  // ---------------------------------------------------------------------
  // The whole mapping

  /** What `mapWorkflowResultToJudge` returns for `wf`. */
  function MapSpec(wf: Json): Option<JudgeResponse> {
    var text := TextOf(wf);
    if IsObjectLike(text) then
      Some(JudgeResponse(CaseIdOf(wf),
        Verdict(None, ObjectTitle(text), [], ObjectOrders(text), None, None, ShareOf(text))))
    else if text.Str? && Trim(text.s) != "" then
      Some(JudgeResponse(CaseIdOf(wf),
        Verdict(None, if HasTitle(text.s) then TitleFromGroup(text.s) else DEFAULT_TITLE, [],
                [Order(FULL_TEXT, text.s, None)], None, None, None)))
    else
      None
  }

  /** The first loop of the object branch: the fixed sections, in order. */
  method CollectSections(text: Json) returns (orders: seq<Order>)
    ensures orders == SectionOrders(text, SECTION_KEYS)
  {
    orders := [];
    for i := 0 to |SECTION_KEYS|
      invariant orders == SectionOrders(text, SECTION_KEYS[..i])
    {
      var k := SECTION_KEYS[i];
      var v := Get(text, k);
      if Truthy(v) {
        orders := orders + [Order(k, ToStr(v), None)];
      }
      assert SECTION_KEYS[..i + 1][..i] == SECTION_KEYS[..i];
    }
    assert SECTION_KEYS[..|SECTION_KEYS|] == SECTION_KEYS;
  }

  /** The second loop: every other own property, in enumeration order. */
  method CollectExtras(entries: seq<(string, Json)>) returns (extra: seq<Order>)
    ensures extra == ExtraOrders(entries)
  {
    extra := [];
    for i := 0 to |entries|
      invariant extra == ExtraOrders(entries[..i])
    {
      var (k, v) := entries[i];
      if k !in SECTION_KEYS {
        extra := extra + [Order(k, ToStr(v), None)];
      }
      assert entries[..i + 1][..i] == entries[..i];
    }
    assert entries[..|entries|] == entries;
  }

  /** The title scan, which stops at the first string value holding a title. */
  method FindTitleEntry(entries: seq<(string, Json)>) returns (found: int)
    ensures found == TitleEntry(entries)
  {
    found := -1;
    for i := 0 to |entries|
      invariant found == -1
      invariant forall j :: 0 <= j < i ==> !Titled(entries[j].1)
    {
      var v := entries[i].1;
      if v.Str? && HasTitle(v.s) {
        found := i;
        break;
      }
    }
  }

  /** `mapWorkflowResultToJudge(data)` */
  method MapWorkflowResultToJudge(data: Json) returns (r: Option<JudgeResponse>)
    ensures r == MapSpec(data)
  {
    var text := Get(Coalesce(Get(Get(data, "data"), "outputs"), Get(data, "outputs")), "text");
    var caseId := ToStr(Or(Or(Or(Get(data, "workflow_run_id"), Get(data, "task_id")), Get(Get(data, "data"), "id")), Str("")));
    if text.Obj? || text.Arr? {
      var orders := CollectSections(text);
      var entries := OwnEntries(text);
      var extra := CollectExtras(entries);
      var found := FindTitleEntry(entries);
      var title := if found >= 0 then TitleMatch(entries[found].1.s) else DEFAULT_TITLE;
      var share := Or(Or(Get(text, "最终判决"), Get(text, "温柔裁定")), Str(""));
      r := Some(JudgeResponse(caseId,
        Verdict(None, title, [], orders + extra, None, None, if Truthy(share) then Some(share) else None)));
    } else if text.Str? && Trim(text.s) != "" {
      var title := if HasTitle(text.s) then TitleFromGroup(text.s) else DEFAULT_TITLE;
      r := Some(JudgeResponse(caseId,
        Verdict(None, title, [], [Order(FULL_TEXT, text.s, None)], None, None, None)));
    } else {
      r := None;
    }
  }

  // ---------------------------------------------------------------------
  // What the mapping promises

  /** Every section order is a truthy fixed section carrying `String(value)`. */
  lemma {:induction false} SectionOrdersSound(text: Json, keys: seq<string>)
    ensures forall i :: 0 <= i < |SectionOrders(text, keys)| ==>
      var o := SectionOrders(text, keys)[i];
      o.kind in keys && Truthy(Get(text, o.kind)) && o.content == ToStr(Get(text, o.kind)) && o.deadline.None?
    decreases |keys|
  {
    if keys != [] {
      SectionOrdersSound(text, keys[..|keys| - 1]);
    }
  }

  /** Every truthy section among `keys` has its order. */
  lemma {:induction false} SectionOrdersComplete(text: Json, keys: seq<string>)
    ensures forall k :: k in keys && Truthy(Get(text, k)) ==> HasKind(SectionOrders(text, keys), k)
    decreases |keys|
  {
    if keys != [] {
      var init := keys[..|keys| - 1];
      var k := keys[|keys| - 1];
      SectionOrdersComplete(text, init);
      var a := SectionOrders(text, init);
      forall x | x in keys && Truthy(Get(text, x)) ensures HasKind(SectionOrders(text, keys), x) {
        if x != k {
          assert x in init by { assert keys == init + [k]; }
          var i :| 0 <= i < |a| && a[i].kind == x;
          assert SectionOrders(text, keys)[i] == a[i];
        } else {
          assert SectionOrders(text, keys)[|a|].kind == k;
        }
      }
    }
  }

  /** No kind repeats when `keys` has no repeats. */
  lemma {:induction false} SectionOrdersDistinct(text: Json, keys: seq<string>)
    requires forall i, j :: 0 <= i < j < |keys| ==> keys[i] != keys[j]
    ensures DistinctKinds(SectionOrders(text, keys))
    decreases |keys|
  {
    if keys != [] {
      var init := keys[..|keys| - 1];
      var k := keys[|keys| - 1];
      SectionOrdersDistinct(text, init);
      SectionOrdersSound(text, init);
      var a := SectionOrders(text, init);
      if Truthy(Get(text, k)) {
        forall i | 0 <= i < |a| ensures a[i].kind != k {
          assert a[i].kind in init;
        }
      }
    }
  }

  /** Every extra order is an own property outside the fixed sections. */
  lemma {:induction false} ExtraOrdersSound(entries: seq<(string, Json)>)
    ensures forall i :: 0 <= i < |ExtraOrders(entries)| ==>
      ExtraOrders(entries)[i].kind !in SECTION_KEYS && HasKey(entries, ExtraOrders(entries)[i].kind)
    decreases |entries|
  {
    if entries != [] {
      var init := entries[..|entries| - 1];
      ExtraOrdersSound(init);
      var a := ExtraOrders(init);
      forall i | 0 <= i < |a| ensures HasKey(entries, a[i].kind) {
        var m :| 0 <= m < |init| && init[m].0 == a[i].kind;
        assert entries[m] == init[m];
      }
    }
  }

  /** Every own property outside the fixed sections has its order. */
  lemma {:induction false} ExtraOrdersComplete(entries: seq<(string, Json)>)
    ensures forall k :: k !in SECTION_KEYS && HasKey(entries, k) ==> HasKind(ExtraOrders(entries), k)
    decreases |entries|
  {
    if entries != [] {
      var init := entries[..|entries| - 1];
      ExtraOrdersComplete(init);
      var a := ExtraOrders(init);
      forall x | x !in SECTION_KEYS && HasKey(entries, x) ensures HasKind(ExtraOrders(entries), x) {
        var m :| 0 <= m < |entries| && entries[m].0 == x;
        if m < |entries| - 1 {
          assert init[m].0 == x;
          var i :| 0 <= i < |a| && a[i].kind == x;
          assert ExtraOrders(entries)[i] == a[i];
        } else {
          assert ExtraOrders(entries)[|a|].kind == x;
        }
      }
    }
  }

  /** Distinct keys give distinct extra kinds. */
  lemma {:induction false} ExtraOrdersDistinct(entries: seq<(string, Json)>)
    requires DistinctKeys(entries)
    ensures DistinctKinds(ExtraOrders(entries))
    decreases |entries|
  {
    if entries != [] {
      var init := entries[..|entries| - 1];
      var k := entries[|entries| - 1].0;
      ExtraOrdersDistinct(init);
      ExtraOrdersSound(init);
      var a := ExtraOrders(init);
      forall i | 0 <= i < |a| ensures a[i].kind != k {
        var m :| 0 <= m < |init| && init[m].0 == a[i].kind;
        assert entries[m].0 != entries[|entries| - 1].0;
      }
    }
  }

  /** A kind occurs in a concatenation exactly when it occurs in one part. */
  lemma HasKindConcat(a: seq<Order>, b: seq<Order>, k: string)
    ensures HasKind(a + b, k) <==> HasKind(a, k) || HasKind(b, k)
  {
    if HasKind(a + b, k) {
      var i :| 0 <= i < |a + b| && (a + b)[i].kind == k;
      if i >= |a| {
        assert b[i - |a|].kind == k;
      }
    }
    if HasKind(a, k) {
      var i :| 0 <= i < |a| && a[i].kind == k;
      assert (a + b)[i].kind == k;
    }
    if HasKind(b, k) {
      var i :| 0 <= i < |b| && b[i].kind == k;
      assert (a + b)[|a| + i].kind == k;
    }
  }

  /** Two lists without repeated kinds and with no kind in common
      concatenate to a list without repeated kinds. */
  lemma DistinctConcat(a: seq<Order>, b: seq<Order>)
    requires DistinctKinds(a) && DistinctKinds(b)
    requires forall i :: 0 <= i < |a| ==> !HasKind(b, a[i].kind)
    ensures DistinctKinds(a + b)
  {
    forall i, j | 0 <= i < j < |a + b| ensures (a + b)[i].kind != (a + b)[j].kind {
      if j < |a| {
        assert (a + b)[i] == a[i] && (a + b)[j] == a[j];
      } else if i >= |a| {
        assert (a + b)[i] == b[i - |a|] && (a + b)[j] == b[j - |a|];
      } else {
        assert (a + b)[i] == a[i] && (a + b)[j] == b[j - |a|];
        assert !HasKind(b, a[i].kind);
      }
    }
  }

  /** No kind repeats in the orders of an object with distinct keys. */
  lemma ObjectOrdersDistinct(text: Json)
    requires DistinctKeys(OwnEntries(text))
    ensures DistinctKinds(ObjectOrders(text))
  {
    var a: seq<Order> := SectionOrders(text, SECTION_KEYS);
    var b: seq<Order> := ExtraOrders(OwnEntries(text));
    assert forall i, j :: 0 <= i < j < |SECTION_KEYS| ==> SECTION_KEYS[i] != SECTION_KEYS[j];
    SectionOrdersSound(text, SECTION_KEYS);
    SectionOrdersDistinct(text, SECTION_KEYS);
    ExtraOrdersSound(OwnEntries(text));
    ExtraOrdersDistinct(OwnEntries(text));
    forall i | 0 <= i < |a| ensures !HasKind(b, a[i].kind) {
      forall j | 0 <= j < |b| ensures b[j].kind != a[i].kind {
      }
    }
    DistinctConcat(a, b);
  }

  /** The kinds listed are the truthy fixed sections and the other own
      properties. */
  lemma ObjectKinds(text: Json)
    ensures forall k :: HasKind(ObjectOrders(text), k) <==>
      if k in SECTION_KEYS then Truthy(Get(text, k)) else HasKey(OwnEntries(text), k)
  {
    var a: seq<Order> := SectionOrders(text, SECTION_KEYS);
    var b: seq<Order> := ExtraOrders(OwnEntries(text));
    SectionOrdersSound(text, SECTION_KEYS);
    SectionOrdersComplete(text, SECTION_KEYS);
    ExtraOrdersSound(OwnEntries(text));
    ExtraOrdersComplete(OwnEntries(text));
    forall k ensures HasKind(a + b, k) <==> if k in SECTION_KEYS then Truthy(Get(text, k)) else HasKey(OwnEntries(text), k) {
      HasKindConcat(a, b, k);
      if HasKind(a, k) {
        var i :| 0 <= i < |a| && a[i].kind == k;
      }
      if HasKind(b, k) {
        var i :| 0 <= i < |b| && b[i].kind == k;
      }
    }
  }

  /** Every fixed section comes before every other property. */
  lemma ObjectSectionsFirst(text: Json)
    ensures forall i, j :: 0 <= i < j < |ObjectOrders(text)| && ObjectOrders(text)[j].kind in SECTION_KEYS ==>
      ObjectOrders(text)[i].kind in SECTION_KEYS
  {
    var a: seq<Order> := SectionOrders(text, SECTION_KEYS);
    var b: seq<Order> := ExtraOrders(OwnEntries(text));
    SectionOrdersSound(text, SECTION_KEYS);
    ExtraOrdersSound(OwnEntries(text));
    forall j | |a| <= j < |a + b| ensures (a + b)[j].kind !in SECTION_KEYS {
      assert (a + b)[j] == b[j - |a|];
    }
    forall i | 0 <= i < |a| ensures (a + b)[i].kind in SECTION_KEYS {
      assert (a + b)[i] == a[i];
    }
  }

  /** For an object (whose keys are distinct) the orders list the truthy fixed
      sections first, then every other own property, each key once. */
  lemma ObjectOrdersAre(text: Json)
    requires DistinctKeys(OwnEntries(text))
    ensures DistinctKinds(ObjectOrders(text))
    ensures forall k :: HasKind(ObjectOrders(text), k) <==>
      if k in SECTION_KEYS then Truthy(Get(text, k)) else HasKey(OwnEntries(text), k)
    ensures forall i, j :: 0 <= i < j < |ObjectOrders(text)| && ObjectOrders(text)[j].kind in SECTION_KEYS ==>
      ObjectOrders(text)[i].kind in SECTION_KEYS
  {
    ObjectOrdersDistinct(text);
    ObjectKinds(text);
    ObjectSectionsFirst(text);
  }

  /** The fixed sections come in the order 案件回顾, 情感剖析, 温柔裁定, 最终判决,
      each present exactly when its value is truthy. */
  lemma SectionOrder(text: Json)
    ensures SectionOrders(text, SECTION_KEYS) ==
      SectionOrder1(text, "案件回顾") + SectionOrder1(text, "情感剖析")
      + SectionOrder1(text, "温柔裁定") + SectionOrder1(text, "最终判决")
  {
    var ks := SECTION_KEYS;
    assert ks[..1][..0] == [] && ks[..2][..1] == ks[..1] && ks[..3][..2] == ks[..2] && ks[..3] == ks[..|ks| - 1];
    assert SectionOrders(text, ks[..1]) == SectionOrder1(text, ks[0]);
    assert SectionOrders(text, ks[..2]) == SectionOrders(text, ks[..1]) + SectionOrder1(text, ks[1]);
    assert SectionOrders(text, ks[..3]) == SectionOrders(text, ks[..2]) + SectionOrder1(text, ks[2]);
    assert SectionOrders(text, ks) == SectionOrders(text, ks[..3]) + SectionOrder1(text, ks[3]);
  }

  /** The order for one fixed section, present when its value is truthy. */
  function SectionOrder1(text: Json, k: string): seq<Order> {
    var v := Get(text, k);
    if Truthy(v) then [Order(k, ToStr(v), None)] else []
  }

  /** The mapping gives `null` exactly when the output text is neither an
      object nor a string with a non-whitespace character. */
  lemma MapNullIff(wf: Json)
    ensures MapSpec(wf).None? <==>
      !IsObjectLike(TextOf(wf)) && !(TextOf(wf).Str? && !IsBlank(TextOf(wf).s))
  {
    if TextOf(wf).Str? {
      TrimEmptyIffBlank(TextOf(wf).s);
    }
  }

  /** A string output becomes one 判决全文 order holding the untrimmed text,
      with the same title the object branch would take and no share summary. */
  lemma MapStringOutput(wf: Json, s: string)
    requires TextOf(wf) == Str(s) && !IsBlank(s)
    ensures MapSpec(wf).Some?
    ensures MapSpec(wf).value.verdict.orders == [Order(FULL_TEXT, s, None)]
    ensures MapSpec(wf).value.verdict.shareSummary.None?
    ensures MapSpec(wf).value.verdict.title == if HasTitle(s) then TitleMatch(s) else DEFAULT_TITLE
  {
    TrimEmptyIffBlank(s);
    var text := TextOf(wf);
    assert !IsObjectLike(text) && text.Str? && Trim(text.s) != "";
    if HasTitle(s) {
      GroupTitleIsMatch(s);
    }
  }

  /** The share summary is 最终判决 when truthy, else 温柔裁定 when truthy,
      else absent. */
  lemma ShareIsVerdictOrRuling(text: Json)
    ensures ShareOf(text).Some? ==> Truthy(ShareOf(text).value)
    ensures ShareOf(text) ==
      if Truthy(Get(text, "最终判决")) then Some(Get(text, "最终判决"))
      else if Truthy(Get(text, "温柔裁定")) then Some(Get(text, "温柔裁定"))
      else None
  {
  }
}
