/** The per-session registry of the NetFlow v9 / IPFIX decoders
    (session/session.go): templates announced by an exporter, and the largest
    record size seen for each template, both filed under the composite key of
    module Ids.

    Go's `basicSession` is a mutable struct; here a session is an immutable
    value and every mutating call returns the next session. The mutex is not
    modelled (it has no sequential meaning). */
module Session {
  import opened Ids
  import opened Wrappers

  /** Go's `int`, which is 32 or 64 bits wide depending on the platform; the
      signed 64-bit range contains the 32-bit one. The store never does
      arithmetic on sizes, it only compares them, so nothing depends on the
      width. */
  type Int64 = x: int | -0x8000_0000_0000_0000 <= x < 0x8000_0000_0000_0000

  /** The `Template` interface as the store sees it: its `TID()` and `OID()`
      accessors, plus the decoder's own definition, which the store never
      inspects. A datatype value cannot be nil, so the nil template that would
      make `AddTemplate` panic is ruled out by its type. */
  datatype Template<Def> = Template(tid: TemplateID, oid: DomainID, def: Def)

  /** The key a template is filed under. */
  function KeyOf<Def>(t: Template<Def>): (key: Key) {
    CombinedID(t.tid, t.oid)
  }

  /** Go's `basicSession` without its mutex. */
  datatype BasicSession<Def> = BasicSession(templates: map<Key, Template<Def>>, sizes: map<Key, Int64>)

  /** The `(size int, found bool)` pair `GetRecordSize` returns. */
  datatype SizeLookup = SizeLookup(size: Int64, found: bool)

  function Max(a: int, b: int): (m: int) {
    if a < b then b else a
  }

  /** What every session built by `New` and the store's own operations keeps:
      each template is filed under its own (tid, oid), and, because
      session/session.go:58 only writes a size larger than the zero value,
      every stored size is positive. */
  ghost predicate Valid<Def>(s: BasicSession<Def>) {
    && (forall k :: k in s.templates ==> KeyOf(s.templates[k]) == k)
    && (forall k :: k in s.sizes ==> s.sizes[k] > 0)
  }

  /** Go's map read `m[k]`: the zero value 0 when k is absent. */
  function ReadOrZero(m: map<Key, Int64>, k: Key): (r: Int64) {
    if k in m then m[k] else 0
  }

  /** `GetRecordSize`: the comma-ok read of the size map. */
  function GetRecordSize<Def>(s: BasicSession<Def>, tid: TemplateID, oid: DomainID): (r: SizeLookup)
    ensures r.found <==> CombinedID(tid, oid) in s.sizes
    ensures r.size == ReadOrZero(s.sizes, CombinedID(tid, oid))
    ensures Valid(s) ==> (r.found <==> r.size > 0)
  {
    var id := CombinedID(tid, oid);
    if id in s.sizes then SizeLookup(s.sizes[id], true) else SizeLookup(0, false)
  }

  /** `GetTemplate`: the comma-ok read of the template map. */
  function GetTemplate<Def>(s: BasicSession<Def>, tid: TemplateID, oid: DomainID): (r: Option<Template<Def>>)
    ensures r.Some? <==> CombinedID(tid, oid) in s.templates
    ensures Valid(s) && r.Some? ==> r.value.tid == tid && r.value.oid == oid
  {
    var id := CombinedID(tid, oid);
    if id in s.templates then Some(s.templates[id]) else None
  }

  /** `New`: a session in which nothing has been announced yet. */
  function New<Def>(): (s: BasicSession<Def>)
    ensures Valid(s)
    ensures forall tid, oid :: GetTemplate(s, tid, oid) == None
    ensures forall tid, oid :: GetRecordSize(s, tid, oid) == SizeLookup(0, false)
  {
    BasicSession(map[], map[])
  }

  /** `SetRecordSize`: keep the larger of the stored size (0 when absent) and
      `size`. Only the size under (tid, oid) can change. */
  function SetRecordSize<Def>(s: BasicSession<Def>, tid: TemplateID, oid: DomainID, size: Int64): (s': BasicSession<Def>)
    ensures s'.templates == s.templates
    ensures GetRecordSize(s', tid, oid).size == Max(GetRecordSize(s, tid, oid).size, size)
    ensures GetRecordSize(s', tid, oid).found <==> GetRecordSize(s, tid, oid).found || size > 0
    ensures forall tid', oid' :: tid' != tid || oid' != oid ==> GetRecordSize(s', tid', oid') == GetRecordSize(s, tid', oid')
    ensures Valid(s) ==> Valid(s')
  {
    var id := CombinedID(tid, oid);
    CombinedIDSeparates();
    if ReadOrZero(s.sizes, id) < size then s.(sizes := s.sizes[id := size]) else s
  }

  /** `AddTemplate`: file `t` under its own (tid, oid), replacing whatever was
      there. Only the template under that key can change. */
  function AddTemplate<Def>(s: BasicSession<Def>, t: Template<Def>): (s': BasicSession<Def>)
    ensures GetTemplate(s', t.tid, t.oid) == Some(t)
    ensures forall tid, oid :: tid != t.tid || oid != t.oid ==> GetTemplate(s', tid, oid) == GetTemplate(s, tid, oid)
    ensures s'.sizes == s.sizes
    ensures Valid(s) ==> Valid(s')
  {
    CombinedIDSeparates();
    s.(templates := s.templates[KeyOf(t) := t])
  }

  /* Templates: a last-write-wins map. */

  /** A second template with the same (tid, oid) replaces the first outright:
      the session is as if the first had never been added. */
  lemma AddTemplateLastWriteWins<Def>(s: BasicSession<Def>, t1: Template<Def>, t2: Template<Def>)
    requires t1.tid == t2.tid && t1.oid == t2.oid
    ensures AddTemplate(AddTemplate(s, t1), t2) == AddTemplate(s, t2)
    ensures GetTemplate(AddTemplate(AddTemplate(s, t1), t2), t1.tid, t1.oid) == Some(t2)
  {
  }

  /** Adding a template that is already filed changes nothing; in particular
      adding the same template twice is the same as adding it once. */
  lemma AddTemplateIdempotent<Def>(s: BasicSession<Def>, t: Template<Def>)
    ensures GetTemplate(s, t.tid, t.oid) == Some(t) ==> AddTemplate(s, t) == s
    ensures AddTemplate(AddTemplate(s, t), t) == AddTemplate(s, t)
  {
  }

  /** Templates with different (tid, oid) do not interact: they can be added in
      either order. */
  lemma AddTemplatesCommute<Def>(s: BasicSession<Def>, t1: Template<Def>, t2: Template<Def>)
    requires t1.tid != t2.tid || t1.oid != t2.oid
    ensures AddTemplate(AddTemplate(s, t1), t2) == AddTemplate(AddTemplate(s, t2), t1)
  {
    CombinedIDInjective(t1.tid, t1.oid, t2.tid, t2.oid);
  }

  /* Record sizes: a max-accumulating map in which an absent key reads as 0. */

  /** A stored size never goes down, and a call with a positive size always
      leaves a stored size at least that large. */
  lemma SetRecordSizeMonotone<Def>(s: BasicSession<Def>, tid: TemplateID, oid: DomainID, size: Int64)
    ensures var before, after := GetRecordSize(s, tid, oid), GetRecordSize(SetRecordSize(s, tid, oid, size), tid, oid);
      && (before.found ==> after.found && after.size >= before.size)
      && (size > 0 ==> after.found && after.size >= size)
  {
  }

  /** A size that is not larger than the one stored (0 when absent) is
      ignored. For an absent key this means a size <= 0 is not recorded and
      the key stays absent, unlike an "insert when absent" rule. */
  lemma SetRecordSizeIgnoresSmaller<Def>(s: BasicSession<Def>, tid: TemplateID, oid: DomainID, size: Int64)
    requires size <= GetRecordSize(s, tid, oid).size
    ensures SetRecordSize(s, tid, oid, size) == s
    ensures !GetRecordSize(s, tid, oid).found ==> !GetRecordSize(SetRecordSize(s, tid, oid, size), tid, oid).found
  {
  }

  /** Recording the same size twice is the same as recording it once. */
  lemma SetRecordSizeIdempotent<Def>(s: BasicSession<Def>, tid: TemplateID, oid: DomainID, size: Int64)
    ensures SetRecordSize(SetRecordSize(s, tid, oid, size), tid, oid, size) == SetRecordSize(s, tid, oid, size)
  {
  }

  /** Any two size updates commute, whether they name the same key or not:
      the order in which records arrive does not affect the sizes kept. */
  lemma SetRecordSizesCommute<Def>(s: BasicSession<Def>, tid1: TemplateID, oid1: DomainID, size1: Int64,
                                   tid2: TemplateID, oid2: DomainID, size2: Int64)
    ensures SetRecordSize(SetRecordSize(s, tid1, oid1, size1), tid2, oid2, size2)
         == SetRecordSize(SetRecordSize(s, tid2, oid2, size2), tid1, oid1, size1)
  {
    CombinedIDInjective(tid1, oid1, tid2, oid2);
  }

  /* The two tables are independent. */

  /** Updating a size and adding a template can be done in either order. */
  lemma AddTemplateCommutesWithSetRecordSize<Def>(s: BasicSession<Def>, t: Template<Def>,
                                                  tid: TemplateID, oid: DomainID, size: Int64)
    ensures AddTemplate(SetRecordSize(s, tid, oid, size), t) == SetRecordSize(AddTemplate(s, t), tid, oid, size)
  {
  }

  /* The scenarios exercised by session/session_test.go. */

  /** One template added to a new session is found under its own IDs. */
  lemma SingleTemplateScenario<Def>(d: Def)
    ensures var t := Template(1, 2, d);
      var r := GetTemplate(AddTemplate(New(), t), 1, 2);
      r == Some(t) && r.value.tid == 1 && r.value.oid == 2
  {
  }

  /** Templates with the same template ID and different domain IDs coexist and
      their keys differ. */
  lemma SameTidDistinctOidScenario<Def>(d1: Def, d2: Def)
    ensures var t1, t2 := Template(1, 2, d1), Template(1, 3, d2);
      var s := AddTemplate(AddTemplate(New(), t1), t2);
      && GetTemplate(s, 1, 2) == Some(t1)
      && GetTemplate(s, 1, 3) == Some(t2)
      && CombinedID(1, 2) != CombinedID(1, 3)
  {
  }

  /* Sizes 10, 5 and 20 recorded for one key. */

  /** Sizes 10, then 5, then 20 for one key: the 5 is ignored and the 20
      replaces the 10; an untouched key still reads as (0, false). */
  lemma RecordSizeScenario<Def>()
    ensures var s1 := SetRecordSize(New<Def>(), 7, 9, 10);
      var s2 := SetRecordSize(s1, 7, 9, 5);
      var s3 := SetRecordSize(s2, 7, 9, 20);
      && GetRecordSize(s2, 7, 9) == SizeLookup(10, true)
      && GetRecordSize(s3, 7, 9) == SizeLookup(20, true)
      && GetRecordSize(s3, 7, 8) == SizeLookup(0, false)
  {
  }
}
