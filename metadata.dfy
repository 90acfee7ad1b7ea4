/**
 * The metadata extractor: the in-page scan of `<meta>` elements into a raw
 * record (last one wins), and the allow-list projection onto the canonical
 * fields `description`, `author` and `ogTitle`.
 */
module Metadata {
  import opened Common
  import opened Dom

  /** The key a tag is recorded under: `name || property`. */
  function KeyOf(t: MetaTag): (k: Option<string>)
    ensures Truthy(t.name) ==> k == t.name
    ensures !Truthy(t.name) ==> k == t.property
  {
    Or(t.name, t.property)
  }

  /** `if (name && content)`: a tag is recorded only when its key and its content are both non-empty. */
  predicate Recorded(t: MetaTag)
    ensures Recorded(t) <==> (Truthy(t.name) || Truthy(t.property)) && Truthy(t.content)
  {
    Truthy(KeyOf(t)) && Truthy(t.content)
  }

  /** The raw record after scanning `tags` in document order: a fold in which
      each recorded tag overwrites any earlier entry for its key. */
  function RawMeta(tags: seq<MetaTag>): (m: map<string, string>)
    ensures forall k :: k in m ==> k != "" && m[k] != ""
    decreases |tags|
  {
    if tags == [] then map[]
    else
      var m := RawMeta(tags[..|tags| - 1]);
      var t := tags[|tags| - 1];
      if Recorded(t) then m[KeyOf(t).value := t.content.value] else m
  }

  /** Tag `i` records key `k`. */
  predicate RecordsKey(tags: seq<MetaTag>, i: int, k: string) {
    0 <= i < |tags| && Recorded(tags[i]) && KeyOf(tags[i]).value == k
  }

  /** Tag `i` records key `k` and no later tag does. */
  predicate LastRecorder(tags: seq<MetaTag>, i: int, k: string) {
    RecordsKey(tags, i, k) && forall j :: i < j < |tags| ==> !RecordsKey(tags, j, k)
  }

  /** The raw record holds exactly the keys some tag records, and each key holds
      the content of the last tag that records it. */
  lemma {:induction false} RawMetaLastWins(tags: seq<MetaTag>, k: string)
    ensures k in RawMeta(tags) <==> exists i :: RecordsKey(tags, i, k)
    ensures k in RawMeta(tags) ==>
      exists i :: LastRecorder(tags, i, k) && RawMeta(tags)[k] == tags[i].content.value
    decreases |tags|
  {
    if tags != [] {
      var n := |tags| - 1;
      var init := tags[..n];
      RawMetaLastWins(init, k);
      assert forall i :: 0 <= i < n ==> init[i] == tags[i];
      if RecordsKey(tags, n, k) {
        assert LastRecorder(tags, n, k);
      } else {
        assert RawMeta(tags) == (if Recorded(tags[n]) then RawMeta(init)[KeyOf(tags[n]).value := tags[n].content.value] else RawMeta(init));
        if (exists i :: RecordsKey(tags, i, k)) {
          var i :| RecordsKey(tags, i, k);
          assert RecordsKey(init, i, k);
        }
        if k in RawMeta(tags) {
          var i :| LastRecorder(init, i, k) && RawMeta(init)[k] == init[i].content.value;
          forall j | i < j < |tags| ensures !RecordsKey(tags, j, k) {
            if j < n {
              assert !RecordsKey(init, j, k);
            }
          }
          assert LastRecorder(tags, i, k);
        }
      }
    }
  }

  /** The page-side scan of `extractMetadata`: a loop over the meta elements
      filling a record, a later tag overwriting an earlier one with the same key. */
  method ScanMetaTags(tags: seq<MetaTag>) returns (data: map<string, string>)
    ensures data == RawMeta(tags)
    ensures forall k :: k in data <==> exists i :: RecordsKey(tags, i, k)
    ensures forall k :: k in data ==> exists i :: LastRecorder(tags, i, k) && data[k] == tags[i].content.value
  {
    data := map[];
    var i := 0;
    while i < |tags|
      invariant 0 <= i <= |tags|
      invariant data == RawMeta(tags[..i])
    {
      var meta := tags[i];
      var name := Or(meta.name, meta.property);
      var content := meta.content;
      if Truthy(name) && Truthy(content) {
        data := data[name.value := content.value];
      }
      assert tags[..i + 1][..i] == tags[..i];
      i := i + 1;
    }
    assert tags[..|tags|] == tags;
    forall k ensures (k in data <==> exists i :: RecordsKey(tags, i, k))
      && (k in data ==> exists i :: LastRecorder(tags, i, k) && data[k] == tags[i].content.value)
    {
      RawMetaLastWins(tags, k);
    }
  }

  /** The canonical metadata fields kept by the projection. */
  const Fields: set<string> := {"description", "author", "ogTitle"}

  /** The raw keys a canonical field is taken from, highest precedence first. */
  function Sources(field: string): seq<string> {
    if field == "description" then ["og:description", "description"]
    else if field == "author" then ["author"]
    else if field == "ogTitle" then ["og:title"]
    else []
  }

  /** `metaTags[key]` is truthy. */
  predicate Present(raw: map<string, string>, key: string) {
    Truthy(Lookup(raw, key))
  }

  /** The value of the first key in `keys` that is present in `raw`. */
  function FirstPresent(raw: map<string, string>, keys: seq<string>): (r: Option<string>)
    ensures r.None? <==> forall i :: 0 <= i < |keys| ==> !Present(raw, keys[i])
    ensures r.Some? ==> (exists i :: 0 <= i < |keys| && Present(raw, keys[i]) && r.value == raw[keys[i]] &&
                                     forall j :: 0 <= j < i ==> !Present(raw, keys[j]))
  {
    if keys == [] then None
    else if Present(raw, keys[0]) then Some(raw[keys[0]])
    else
      var r := FirstPresent(raw, keys[1..]);
      assert forall i :: 1 <= i < |keys| ==> keys[i] == keys[1..][i - 1];
      r
  }

  /** The value of canonical field `field`: its highest-precedence present source. */
  function FieldValue(raw: map<string, string>, field: string): Option<string> {
    FirstPresent(raw, Sources(field))
  }

  /** `m` with `k` set to `v` when there is a value. */
  function Include(m: map<string, string>, k: string, v: Option<string>): map<string, string> {
    if v.Some? then m[k := v.value] else m
  }

  /** Reference definition of the projection: each canonical field that has a
      value, and nothing else. */
  function Projection(raw: map<string, string>): map<string, string> {
    Include(Include(Include(map[], "description", FieldValue(raw, "description")),
                    "author", FieldValue(raw, "author")),
            "ogTitle", FieldValue(raw, "ogTitle"))
  }

  /** The field values, source by source. */
  lemma FieldValues(raw: map<string, string>)
    ensures FieldValue(raw, "description") ==
      if Present(raw, "og:description") then Some(raw["og:description"])
      else if Present(raw, "description") then Some(raw["description"]) else None
    ensures FieldValue(raw, "author") == if Present(raw, "author") then Some(raw["author"]) else None
    ensures FieldValue(raw, "ogTitle") == if Present(raw, "og:title") then Some(raw["og:title"]) else None
  {
    assert ["og:description", "description"][1..] == ["description"];
    assert ["description"][1..] == [];
    assert FirstPresent(raw, ["description"]) == if Present(raw, "description") then Some(raw["description"]) else None;
    assert ["author"][1..] == [];
    assert ["og:title"][1..] == [];
  }

  /** The projection keeps only the canonical fields; `og:description` overrides
      `description`; `author` and `ogTitle` are copied from `author` and `og:title`. */
  lemma ProjectionFields(raw: map<string, string>)
    ensures Projection(raw).Keys <= Fields
    ensures "description" in Projection(raw) <==> Present(raw, "og:description") || Present(raw, "description")
    ensures "description" in Projection(raw) ==>
      Projection(raw)["description"] == if Present(raw, "og:description") then raw["og:description"] else raw["description"]
    ensures "author" in Projection(raw) <==> Present(raw, "author")
    ensures "author" in Projection(raw) ==> Projection(raw)["author"] == raw["author"]
    ensures "ogTitle" in Projection(raw) <==> Present(raw, "og:title")
    ensures "ogTitle" in Projection(raw) ==> Projection(raw)["ogTitle"] == raw["og:title"]
  {
    FieldValues(raw);
  }

  /** The host-side half of `extractMetadata`: conditional assignments into an
      empty record, `og:description` assigned after `description`. */
  method ProjectMetadata(metaTags: map<string, string>) returns (metadata: map<string, string>)
    ensures metadata == Projection(metaTags)
  {
    FieldValues(metaTags);
    metadata := map[];
    if Present(metaTags, "description") {
      metadata := metadata["description" := metaTags["description"]];
    }
    if Present(metaTags, "author") {
      metadata := metadata["author" := metaTags["author"]];
    }
    if Present(metaTags, "og:description") {
      metadata := metadata["description" := metaTags["og:description"]];
    }
    if Present(metaTags, "og:title") {
      metadata := metadata["ogTitle" := metaTags["og:title"]];
    }
  }
}
