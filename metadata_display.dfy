/**
 The credits panel: a fixed table of eleven labelled scalar fields, of which
 only those with a truthy value are shown, followed by the vocalist and
 instrumentalist lists, each shown only when it exists and is non-empty.
 */
module MetadataDisplay {

  import opened Wrappers
  import opened Records
  import opened Sequences

  /** One entry of the `fields` table. */
  datatype Field = Field(heading: string, value: Option<string>)

  /** The labels of the `fields` table, in display order. */
  const Labels: seq<string> := [
    "Producer", "Composer", "Lyricist", "Songwriter", "Mastering Engineer",
    "Mixing Engineer", "Recording Engineer", "Vocal Engineer", "Publisher",
    "Genre", "Release Date"]

  /** The `fields` table for a record: each label with the field it shows. */
  function Fields(m: Metadata): (fields: seq<Field>)
    ensures |fields| == |Labels|
    ensures forall i :: 0 <= i < |fields| ==> fields[i].heading == Labels[i]
  {
    [ Field("Producer", m.producer),
      Field("Composer", m.composer),
      Field("Lyricist", m.lyricist),
      Field("Songwriter", m.songwriter),
      Field("Mastering Engineer", m.masteringEngineer),
      Field("Mixing Engineer", m.mixingEngineer),
      Field("Recording Engineer", m.recordingEngineer),
      Field("Vocal Engineer", m.vocalEngineer),
      Field("Publisher", m.publisher),
      Field("Genre", m.genre),
      Field("Release Date", m.releaseDate) ]
  }

  /** `field.value && ...`: the fields that render. */
  function ShownFields(m: Metadata): seq<Field> {
    Filter(Fields(m), (f: Field) => Truthy(f.value))
  }

  /** No two fields share a label. */
  lemma LabelsDistinct()
    ensures NoDup(Labels)
  {
  }

  /** The shown fields keep the table's order, and none of them is empty or absent. */
  lemma ShownFieldsInOrder(m: Metadata)
    ensures IsSubsequence(ShownFields(m), Fields(m))
    ensures forall f :: f in ShownFields(m) ==> Truthy(f.value)
  {
    FilterIsSubsequence(Fields(m), (f: Field) => Truthy(f.value));
  }

  /** A label is on screen exactly when its field is truthy. */
  lemma LabelShownIff(m: Metadata, i: nat)
    requires i < |Labels|
    ensures (exists f :: f in ShownFields(m) && f.heading == Labels[i]) <==> Truthy(Fields(m)[i].value)
  {
    var fields := Fields(m);
    if Truthy(fields[i].value) {
      assert fields[i] in ShownFields(m);
    }
    if f :| f in ShownFields(m) && f.heading == Labels[i] {
      assert f in fields;
      var j :| 0 <= j < |fields| && fields[j] == f;
      LabelsDistinct();
      assert Labels[j] == Labels[i];
    }
  }

  /** A list section: its heading and its entries, each shown as written. */
  datatype Section = Section(title: string, entries: seq<string>)

  /** `list && list.length > 0 && ...`. */
  function ListSection(title: string, list: Option<seq<string>>): (shown: seq<Section>)
    ensures shown != [] <==> list.Some? && list.value != []
    ensures shown != [] ==> shown == [Section(title, list.value)]
  {
    if list.Some? && |list.value| > 0 then [Section(title, list.value)] else []
  }

  /** The vocalist section, then the instrumentalist section. */
  function Sections(m: Metadata): seq<Section> {
    ListSection("Vocalists", m.vocalists) + ListSection("Instrumentalists", m.instrumentalists)
  }

  /**
   The vocalist section appears exactly when the list is there and not
   empty, and then lists every credit unsplit and in order; the same holds
   for the instrumentalists.
   */
  lemma SectionsShown(m: Metadata)
    ensures forall v :: Section("Vocalists", v) in Sections(m) <==> m.vocalists == Some(v) && v != []
    ensures forall v :: Section("Instrumentalists", v) in Sections(m) <==>
      m.instrumentalists == Some(v) && v != []
  {
    var a, b := ListSection("Vocalists", m.vocalists), ListSection("Instrumentalists", m.instrumentalists);
    assert Sections(m) == a + b;
    forall v ensures Section("Vocalists", v) in a + b <==> Section("Vocalists", v) in a {
      assert Section("Vocalists", v) !in b;
    }
    forall v ensures Section("Instrumentalists", v) in a + b <==> Section("Instrumentalists", v) in b {
      assert Section("Instrumentalists", v) !in a;
    }
  }
}
