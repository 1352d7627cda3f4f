/**
 * The prompt schema tree of `omakase/backend/mnemonics/base.py`: a `PromptFieldsData`
 * holds one `PromptSection` per section class, a section holds `n_repeat` rows of one
 * `PromptRow` class, a row holds one `PromptField` per field class, every field starting
 * at `""`. Each constructor then rebinds its children's `notify` to its own.
 *
 * Instances are values here. Whose observers a `notify` call reaches is recorded as the
 * owner's position in the tree (`[]` is the prompt data, `[s]` section `s`, `[s, r]` row
 * `r` of it, `[s, r, f]` a field).
 */
module PromptSchema {
  import opened Wrappers

  datatype FieldClass = FieldClass(promptName: string, uiName: string, uiExplanation: string, uiPlaceholder: string)
  datatype RowClass = RowClass(name: string, fieldClasses: seq<FieldClass>)
  datatype SectionClass = SectionClass(name: string, rowClass: RowClass, nRepeat: int,
                                       uiName: string, promptName: string, header: string)
  datatype FieldsDataClass = FieldsDataClass(name: string, sectionClasses: seq<SectionClass>,
                                             uiName: string, header: string)

  /** The position, from the prompt data, of the object whose observers `notify` reaches. */
  type Owner = seq<nat>

  datatype Field = Field(cls: FieldClass, value: string, notifies: Owner)
  datatype Row = Row(cls: RowClass, value: seq<Field>, notifies: Owner)
  datatype Section = Section(cls: SectionClass, value: seq<Row>, notifies: Owner)
  datatype FieldsData = FieldsData(cls: FieldsDataClass, value: seq<Section>, notifies: Owner)

  /** `range(n)` has `n` elements when `n` is positive and none otherwise. */
  function Repeats(n: int): nat
  {
    if n > 0 then n else 0
  }

  // ---------------------------------------------------------------------------
  // Shape of a freshly built tree
  // ---------------------------------------------------------------------------

  /** One field per field class, in order, each `""` and notifying `fieldsNotify`. */
  predicate BuiltRow(row: Row, cls: RowClass, fieldsNotify: Owner, notifies: Owner)
  {
    row.cls == cls && row.notifies == notifies && |row.value| == |cls.fieldClasses| &&
    forall i :: 0 <= i < |row.value| ==> row.value[i] == Field(cls.fieldClasses[i], "", fieldsNotify)
  }

  /** As built by the code: row `r` keeps its fields bound to itself (`at + [r]`). */
  predicate BuiltSection(sec: Section, cls: SectionClass, at: Owner, notifies: Owner)
  {
    sec.cls == cls && sec.notifies == notifies && |sec.value| == Repeats(cls.nRepeat) &&
    forall r :: 0 <= r < |sec.value| ==> BuiltRow(sec.value[r], cls.rowClass, at + [r], at)
  }

  predicate BuiltFieldsData(data: FieldsData, cls: FieldsDataClass)
  {
    data.cls == cls && data.notifies == [] && |data.value| == |cls.sectionClasses| &&
    forall s :: 0 <= s < |data.value| ==> BuiltSection(data.value[s], cls.sectionClasses[s], [s], [])
  }

  /** As the developer note of base.py intends: every row and field of the section notifies `target`. */
  predicate SharedSection(sec: Section, cls: SectionClass, target: Owner)
  {
    sec.cls == cls && sec.notifies == target && |sec.value| == Repeats(cls.nRepeat) &&
    forall r :: 0 <= r < |sec.value| ==> BuiltRow(sec.value[r], cls.rowClass, target, target)
  }

  predicate SharedFieldsData(data: FieldsData, cls: FieldsDataClass)
  {
    data.cls == cls && data.notifies == [] && |data.value| == |cls.sectionClasses| &&
    forall s :: 0 <= s < |data.value| ==> SharedSection(data.value[s], cls.sectionClasses[s], [])
  }

  // ---------------------------------------------------------------------------
  // Constructors
  // ---------------------------------------------------------------------------

  /** `PromptRow.__init__` for a row at `at`: build the fields, then rebind their `notify`. */
  method NewRow(cls: RowClass, at: Owner) returns (row: Row)
    ensures BuiltRow(row, cls, at, at)
  {
    var fields: seq<Field> := [];
    for i := 0 to |cls.fieldClasses|
      invariant |fields| == i
      invariant forall j :: 0 <= j < i ==> fields[j] == Field(cls.fieldClasses[j], "", at + [j])
    {
      fields := fields + [Field(cls.fieldClasses[i], "", at + [i])];
    }
    row := Row(cls, fields, at);
    for i := 0 to |fields|
      invariant row.cls == cls && row.notifies == at && |row.value| == |fields|
      invariant forall j :: 0 <= j < |fields| ==>
        row.value[j] == Field(cls.fieldClasses[j], "", if j < i then at else at + [j])
    {
      row := row.(value := row.value[i := row.value[i].(notifies := row.notifies)]);
    }
  }

  /** `PromptSection.__init__` for a section at `at`: `n_repeat` rows, each rebound to the section. */
  method NewSection(cls: SectionClass, at: Owner) returns (sec: Section)
    ensures BuiltSection(sec, cls, at, at)
  {
    var rows: seq<Row> := [];
    for r := 0 to Repeats(cls.nRepeat)
      invariant |rows| == r
      invariant forall j :: 0 <= j < r ==> BuiltRow(rows[j], cls.rowClass, at + [j], at + [j])
    {
      var row := NewRow(cls.rowClass, at + [r]);
      rows := rows + [row];
    }
    sec := Section(cls, rows, at);
    for r := 0 to |rows|
      invariant sec.cls == cls && sec.notifies == at && |sec.value| == |rows|
      invariant forall j :: 0 <= j < |rows| ==>
        BuiltRow(sec.value[j], cls.rowClass, at + [j], if j < r then at else at + [j])
    {
      sec := sec.(value := sec.value[r := sec.value[r].(notifies := sec.notifies)]);
    }
  }

  /** `PromptFieldsData.__init__`: one section per class, each rebound to the prompt data. */
  method NewFieldsData(cls: FieldsDataClass) returns (data: FieldsData)
    ensures BuiltFieldsData(data, cls)
  {
    var sections: seq<Section> := [];
    for s := 0 to |cls.sectionClasses|
      invariant |sections| == s
      invariant forall j :: 0 <= j < s ==> BuiltSection(sections[j], cls.sectionClasses[j], [j], [j])
    {
      var sec := NewSection(cls.sectionClasses[s], [s]);
      sections := sections + [sec];
    }
    data := FieldsData(cls, sections, []);
    for s := 0 to |sections|
      invariant data.cls == cls && data.notifies == [] && |data.value| == |sections|
      invariant forall j :: 0 <= j < |sections| ==>
        BuiltSection(data.value[j], cls.sectionClasses[j], [j], if j < s then [] else [j])
    {
      data := data.(value := data.value[s := data.value[s].(notifies := data.notifies)]);
    }
  }

  /**
   * As built, a field's `notify` reaches its row's observers and a row's its section's:
   * only the sections share the prompt data's `notify`.
   */
  lemma {:induction false} NotifyStopsBelowRoot(data: FieldsData, cls: FieldsDataClass, s: nat, r: nat, f: nat)
    requires BuiltFieldsData(data, cls)
    requires s < |data.value| && r < |data.value[s].value| && f < |data.value[s].value[r].value|
    ensures data.value[s].notifies == data.notifies
    ensures data.value[s].value[r].notifies == [s] != data.notifies
    ensures data.value[s].value[r].value[f].notifies == [s, r] != data.notifies
  {
    assert BuiltSection(data.value[s], cls.sectionClasses[s], [s], []);
    assert BuiltRow(data.value[s].value[r], cls.sectionClasses[s].rowClass, [s] + [r], [s]);
  }

  /** Rebind a row and all its fields to `target`. */
  method ShareRow(row: Row, target: Owner) returns (shared: Row)
    ensures shared.cls == row.cls && shared.notifies == target && |shared.value| == |row.value|
    ensures forall i :: 0 <= i < |row.value| ==> shared.value[i] == row.value[i].(notifies := target)
  {
    shared := row.(notifies := target);
    for i := 0 to |row.value|
      invariant shared.cls == row.cls && shared.notifies == target && |shared.value| == |row.value|
      invariant forall j :: 0 <= j < |row.value| ==>
        shared.value[j] == if j < i then row.value[j].(notifies := target) else row.value[j]
    {
      shared := shared.(value := shared.value[i := shared.value[i].(notifies := target)]);
    }
  }

  /** Rebind a section, its rows and their fields to `target`. */
  method ShareSection(sec: Section, cls: SectionClass, at: Owner, target: Owner) returns (shared: Section)
    requires BuiltSection(sec, cls, at, at)
    ensures SharedSection(shared, cls, target)
  {
    shared := sec.(notifies := target);
    for r := 0 to |sec.value|
      invariant shared.cls == cls && shared.notifies == target && |shared.value| == |sec.value|
      invariant forall j :: 0 <= j < |sec.value| ==>
        if j < r then BuiltRow(shared.value[j], cls.rowClass, target, target) else shared.value[j] == sec.value[j]
    {
      var row := ShareRow(shared.value[r], target);
      shared := shared.(value := shared.value[r := row]);
    }
  }

  /** The constructor as the developer note of base.py describes it: the prompt data's `notify` reaches every doll. */
  method NewFieldsDataShared(cls: FieldsDataClass) returns (data: FieldsData)
    ensures SharedFieldsData(data, cls)
  {
    var sections: seq<Section> := [];
    for s := 0 to |cls.sectionClasses|
      invariant |sections| == s
      invariant forall j :: 0 <= j < s ==> SharedSection(sections[j], cls.sectionClasses[j], [])
    {
      var sec := NewSection(cls.sectionClasses[s], [s]);
      sec := ShareSection(sec, cls.sectionClasses[s], [s], []);
      sections := sections + [sec];
    }
    data := FieldsData(cls, sections, []);
  }

  /** With the sharing the developer note of base.py intends, every field and row reaches the prompt data. */
  lemma SharedNotifyReachesRoot(data: FieldsData, cls: FieldsDataClass, s: nat, r: nat, f: nat)
    requires SharedFieldsData(data, cls)
    requires s < |data.value| && r < |data.value[s].value| && f < |data.value[s].value[r].value|
    ensures data.value[s].value[r].notifies == data.notifies
    ensures data.value[s].value[r].value[f].notifies == data.notifies
  {
    assert SharedSection(data.value[s], cls.sectionClasses[s], []);
  }

  // ---------------------------------------------------------------------------
  // Explanations
  // ---------------------------------------------------------------------------

  /** One field's line of a section explanation. */
  function Bullet(f: FieldClass): string
  {
    "\n* `" + f.uiName + "`: " + f.uiExplanation
  }

  /** The field lines, in order. */
  function Bullets(fields: seq<FieldClass>): string
  {
    if fields == [] then "" else Bullets(fields[..|fields| - 1]) + Bullet(fields[|fields| - 1])
  }

  function ClassesOf(fields: seq<Field>): (r: seq<FieldClass>)
    ensures |r| == |fields| && forall i :: 0 <= i < |fields| ==> r[i] == fields[i].cls
  {
    seq(|fields|, i requires 0 <= i < |fields| => fields[i].cls)
  }

  /** Bullets of consecutive field lists are consecutive. */
  lemma {:induction false} BulletsAppend(a: seq<FieldClass>, b: seq<FieldClass>)
    ensures Bullets(a + b) == Bullets(a) + Bullets(b)
    decreases |b|
  {
    if b == [] {
      assert a + b == a;
    } else {
      var b', last := b[..|b| - 1], b[|b| - 1];
      assert (a + b)[..|a + b| - 1] == a + b' && (a + b)[|a + b| - 1] == last;
      assert Bullets(a + b) == Bullets(a + b') + Bullet(last);
      BulletsAppend(a, b');
      assert Bullets(b) == Bullets(b') + Bullet(last);
    }
  }

  function SectionHead(cls: SectionClass): string
  {
    "#### " + cls.uiName + "\n" + cls.header + "\n"
  }

  /** `full_ui_explanation`: the header, then one line per field of the first row. */
  function SectionExplanation(sec: Section): (r: Result<string>)
    ensures r.Err? <==> sec.value == []
    ensures r.Err? ==> r.error == IndexError
    ensures r.Ok? ==> SectionHead(sec.cls) <= r.value
  {
    if |sec.value| == 0 then Err(IndexError)
    else Ok(SectionHead(sec.cls) + Bullets(ClassesOf(sec.value[0].value)))
  }

  /** The string accumulation of `full_ui_explanation`. */
  method FullUiExplanation(sec: Section) returns (r: Result<string>)
    ensures r == SectionExplanation(sec)
  {
    var fullExpl := "";
    fullExpl := fullExpl + "#### " + sec.cls.uiName;
    fullExpl := fullExpl + "\n" + sec.cls.header;
    fullExpl := fullExpl + "\n";
    if |sec.value| == 0 {
      return Err(IndexError);
    }
    var typicalRow := sec.value[0];
    var fields := ClassesOf(typicalRow.value);
    assert fullExpl == SectionHead(sec.cls);
    for i := 0 to |fields|
      invariant fullExpl == SectionHead(sec.cls) + Bullets(fields[..i])
    {
      assert fields[..i + 1][..i] == fields[..i];
      fullExpl := fullExpl + "\n* `" + fields[i].uiName + "`: " + fields[i].uiExplanation;
    }
    assert fields[..|fields|] == fields;
    r := Ok(fullExpl);
  }

  /** For a built section the text depends only on the classes, and needs at least one row. */
  lemma BuiltSectionExplanation(sec: Section, cls: SectionClass, at: Owner, notifies: Owner)
    requires BuiltSection(sec, cls, at, notifies) || SharedSection(sec, cls, notifies)
    ensures cls.nRepeat <= 0 ==> SectionExplanation(sec) == Err(IndexError)
    ensures cls.nRepeat > 0 ==> SectionExplanation(sec) == Ok(SectionHead(cls) + Bullets(cls.rowClass.fieldClasses))
  {
    if cls.nRepeat > 0 {
      assert ClassesOf(sec.value[0].value) == cls.rowClass.fieldClasses;
    }
  }

  function MnemHead(cls: FieldsDataClass): string
  {
    "### " + cls.uiName + "\n" + cls.header
  }

  /** The section explanations, each after a line break, in section order. */
  function SectionsExplanation(secs: seq<Section>): (r: Result<string>)
    ensures r.Err? ==> r.error == IndexError
  {
    if secs == [] then Ok("")
    else match SectionsExplanation(secs[..|secs| - 1])
      case Err(e) => Err(e)
      case Ok(prev) =>
        match SectionExplanation(secs[|secs| - 1])
        case Err(e) => Err(e)
        case Ok(last) => Ok(prev + "\n" + last)
  }

  /** `full_mnem_explanation`. */
  function MnemExplanation(data: FieldsData): (r: Result<string>)
    ensures r.Err? ==> r.error == IndexError
    ensures r.Ok? ==> MnemHead(data.cls) <= r.value
  {
    match SectionsExplanation(data.value)
    case Err(e) => Err(e)
    case Ok(body) => Ok(MnemHead(data.cls) + body)
  }

  /** The string accumulation of `full_mnem_explanation`; a section with no row raises. */
  method FullMnemExplanation(data: FieldsData) returns (r: Result<string>)
    ensures r == MnemExplanation(data)
  {
    var fullExpl := "";
    fullExpl := fullExpl + "### " + data.cls.uiName;
    fullExpl := fullExpl + "\n" + data.cls.header;
    ghost var body := "";
    for s := 0 to |data.value|
      invariant SectionsExplanation(data.value[..s]) == Ok(body)
      invariant fullExpl == MnemHead(data.cls) + body
    {
      var sectionExpl := FullUiExplanation(data.value[s]);
      if sectionExpl.Err? {
        SectionsExplanationSnoc(data.value, s, body);
        SectionsExplanationErr(data.value, s + 1);
        return Err(IndexError);
      }
      MnemExplanationStep(data, s, body, fullExpl, sectionExpl.value);
      fullExpl := fullExpl + "\n" + sectionExpl.value;
      body := body + "\n" + sectionExpl.value;
    }
    assert data.value[..|data.value|] == data.value;
    r := Ok(fullExpl);
  }

  /** One more section: its explanation is appended after a line break, or its error is the result. */
  lemma SectionsExplanationSnoc(secs: seq<Section>, s: nat, body: string)
    requires s < |secs| && SectionsExplanation(secs[..s]) == Ok(body)
    ensures SectionExplanation(secs[s]).Err? ==> SectionsExplanation(secs[..s + 1]) == Err(IndexError)
    ensures SectionExplanation(secs[s]).Ok? ==>
      SectionsExplanation(secs[..s + 1]) == Ok(body + "\n" + SectionExplanation(secs[s]).value)
  {
    assert secs[..s + 1][..s] == secs[..s] && secs[..s + 1][s] == secs[s];
  }

  /** The accumulated text stays the header followed by the explanations so far. */
  lemma MnemExplanationStep(data: FieldsData, s: nat, body: string, fullExpl: string, expl: string)
    requires s < |data.value| && SectionsExplanation(data.value[..s]) == Ok(body)
    requires fullExpl == MnemHead(data.cls) + body && SectionExplanation(data.value[s]) == Ok(expl)
    ensures SectionsExplanation(data.value[..s + 1]) == Ok(body + "\n" + expl)
    ensures fullExpl + "\n" + expl == MnemHead(data.cls) + (body + "\n" + expl)
  {
    SectionsExplanationSnoc(data.value, s, body);
  }

  lemma {:induction false} SectionsExplanationErr(secs: seq<Section>, n: nat)
    requires n <= |secs| && SectionsExplanation(secs[..n]) == Err(IndexError)
    ensures SectionsExplanation(secs) == Err(IndexError)
    decreases |secs| - n
  {
    if n < |secs| {
      assert secs[..n + 1][..n] == secs[..n];
      SectionsExplanationErr(secs, n + 1);
    } else {
      assert secs[..n] == secs;
    }
  }

  /** The explanation raises exactly when some section has no row; otherwise it starts with the header. */
  lemma {:induction false} MnemExplanationShape(data: FieldsData)
    ensures MnemExplanation(data).Err? <==> exists s :: 0 <= s < |data.value| && |data.value[s].value| == 0
    ensures MnemExplanation(data).Ok? ==> MnemHead(data.cls) <= MnemExplanation(data).value
  {
    SectionsExplanationErrIff(data.value);
  }

  lemma {:induction false} SectionsExplanationErrIff(secs: seq<Section>)
    ensures SectionsExplanation(secs).Err? <==> exists s :: 0 <= s < |secs| && |secs[s].value| == 0
  {
    if secs != [] {
      var init := secs[..|secs| - 1];
      SectionsExplanationErrIff(init);
      assert forall s :: 0 <= s < |init| ==> init[s] == secs[s];
    }
  }
}
