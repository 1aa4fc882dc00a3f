/** The comparison tray, the comparison table and its per-feature popup
    (components/Comparison.tsx). */
module Comparison {
  import opened Wrappers
  import opened Types
  import opened Strings
  import opened GeminiService

  // ---------------------------------------------------------------- the popup's text

  /** The separator the popup splits the reply on. */
  const Bullet := "* "

  /** `.filter(line => line.trim() !== '')`. */
  function NonBlank(pieces: seq<string>): seq<string> {
    if pieces == [] then []
    else if IsBlank(pieces[0]) then NonBlank(pieces[1..])
    else [pieces[0]] + NonBlank(pieces[1..])
  }

  /** The kept lines are exactly the non-blank pieces. */
  lemma {:induction false} NonBlankMembers(pieces: seq<string>)
    ensures forall k | 0 <= k < |NonBlank(pieces)| :: !IsBlank(NonBlank(pieces)[k])
    ensures forall p :: p in NonBlank(pieces) <==> p in pieces && !IsBlank(p)
  {
    if pieces != [] {
      NonBlankMembers(pieces[1..]);
      assert pieces == [pieces[0]] + pieces[1..];
    }
  }

  lemma {:induction false} NonBlankKeepsAll(pieces: seq<string>)
    requires forall k | 0 <= k < |pieces| :: !IsBlank(pieces[k])
    ensures NonBlank(pieces) == pieces
  {
    if pieces != [] {
      assert !IsBlank(pieces[0]);
      NonBlankKeepsAll(pieces[1..]);
      assert pieces == [pieces[0]] + pieces[1..];
    }
  }

  /** The filter keeps the non-blank pieces in their order, repeats included: filtering a
      concatenation is filtering each part. */
  lemma {:induction false} NonBlankAppend(a: seq<string>, b: seq<string>)
    ensures NonBlank(a + b) == NonBlank(a) + NonBlank(b)
  {
    if a == [] {
      assert a + b == b;
    } else {
      var x, t := a[0], a[1..];
      NonBlankAppend(t, b);
      assert a == [x] + t && a + b == [x] + (t + b);
      NonBlankCons(x, t);
      NonBlankCons(x, t + b);
    }
  }

  lemma NonBlankCons(x: string, s: seq<string>)
    ensures NonBlank([x] + s) == (if IsBlank(x) then [] else [x]) + NonBlank(s)
  {
    assert ([x] + s)[0] == x && ([x] + s)[1..] == s;
  }

  /** `formatResult`: the reply split on "* ", blank pieces dropped. Every line shown has
      some visible character and no bullet inside it. */
  function FormatResult(text: string): (lines: seq<string>)
    ensures forall k | 0 <= k < |lines| :: !IsBlank(lines[k]) && !Contains(lines[k], Bullet)
  {
    var pieces := Split(text, Bullet);
    SplitPiecesFree(text, Bullet);
    NonBlankMembers(pieces);
    NonBlank(pieces)
  }

  lemma BulletBorderless()
    ensures Borderless(Bullet)
  {
    assert Bullet[1..][0] == ' ' && Bullet[..1][0] == '*';
  }

  /** A reply written as a bulleted list, "* " before each item, shows exactly its items in
      their order, provided no item is blank or holds a bullet. */
  lemma FormatResultOfBullets(items: seq<string>)
    requires |items| >= 1
    requires forall k | 0 <= k < |items| :: !IsBlank(items[k]) && !Contains(items[k], Bullet)
    ensures FormatResult(Bullet + Join(items, Bullet)) == items
  {
    var parts := [""] + items;
    BulletedSplit(items);
    NonBlankKeepsAll(items);
    assert IsBlank(parts[0]);
    assert parts[1..] == items;
  }

  /** Splitting a bulleted list on the bullet gives an empty piece, then the items. */
  lemma BulletedSplit(items: seq<string>)
    requires |items| >= 1
    requires forall k | 0 <= k < |items| :: !Contains(items[k], Bullet)
    ensures Split(Bullet + Join(items, Bullet), Bullet) == [""] + items
  {
    var parts := [""] + items;
    JoinAfterEmpty(items);
    assert forall k | 0 <= k < |parts| :: !Contains(parts[k], Bullet) by {
      NoRoomNoOccurrence("", Bullet);
      forall k | 0 <= k < |parts| ensures !Contains(parts[k], Bullet) {
        if k > 0 {
          assert parts[k] == items[k - 1];
        }
      }
    }
    BulletBorderless();
    SplitJoin(parts, Bullet);
  }

  lemma JoinAfterEmpty(items: seq<string>)
    requires |items| >= 1
    ensures Join([""] + items, Bullet) == Bullet + Join(items, Bullet)
  {
    var parts := [""] + items;
    assert parts[1..] == items;
    assert Join(parts, Bullet) == "" + Bullet + Join(items, Bullet);
  }

  // ---------------------------------------------------------------- the table's rows

  /** The keys of `specs` the table offers a feature comparison for. */
  datatype SpecKey = DisplayKey | BatteryKey | CameraKey | ProcessorKey | RamKey | StorageKey

  datatype SpecRow = SpecRow(title: string, key: SpecKey)

  /** `specRows`. */
  const SpecRows: seq<SpecRow> := [
    SpecRow("Ekran", DisplayKey),
    SpecRow("Batarya", BatteryKey),
    SpecRow("Kamera", CameraKey),
    SpecRow("İşlemci", ProcessorKey),
    SpecRow("RAM", RamKey),
    SpecRow("Depolama", StorageKey)
  ]

  /** The property name of a key, as in the response schema. */
  function KeyName(key: SpecKey): string {
    match key
    case DisplayKey => "display"
    case BatteryKey => "battery"
    case CameraKey => "camera"
    case ProcessorKey => "processor"
    case RamKey => "ram"
    case StorageKey => "storage"
  }

  /** `specs[key]`. */
  function SpecValue(specs: Specs, key: SpecKey): string {
    match key
    case DisplayKey => specs.display
    case BatteryKey => specs.battery
    case CameraKey => specs.camera
    case ProcessorKey => specs.processor
    case RamKey => specs.ram
    case StorageKey => specs.storage
  }

  /** The keys of the rows, in row order. */
  function RowKeys(): seq<SpecKey> {
    seq(|SpecRows|, i requires 0 <= i < |SpecRows| => SpecRows[i].key)
  }

  /** The six rows name each field of `specs` once, in the schema's order. */
  lemma SpecRowsCoverSpecs()
    ensures |SpecRows| == |SpecsFields|
    ensures forall i | 0 <= i < |SpecRows| :: KeyName(SpecRows[i].key) == SpecsFields[i]
    ensures forall key: SpecKey :: key in RowKeys()
    ensures forall i, j | 0 <= i < j < |SpecRows| :: SpecRows[i].key != SpecRows[j].key
  {
    var keys := RowKeys();
    assert keys == [DisplayKey, BatteryKey, CameraKey, ProcessorKey, RamKey, StorageKey];
    forall key: SpecKey ensures key in keys {
      match key
      case DisplayKey => assert keys[0] == key;
      case BatteryKey => assert keys[1] == key;
      case CameraKey => assert keys[2] == key;
      case ProcessorKey => assert keys[3] == key;
      case RamKey => assert keys[4] == key;
      case StorageKey => assert keys[5] == key;
    }
  }

  /** `list.map(p => ({ model: p.model, value: p.specs[row.key] }))`. */
  function RowValues(list: seq<PhoneRecommendation>, key: SpecKey): (values: seq<FeatureValue>)
    ensures |values| == |list|
    ensures forall i | 0 <= i < |list| :: values[i].model == list[i].model
    ensures forall i | 0 <= i < |list| :: values[i].value == SpecValue(list[i].specs, key)
  {
    seq(|list|, i requires 0 <= i < |list| => FeatureValue(list[i].model, SpecValue(list[i].specs, key)))
  }

  /** What a row's comparison asks about: one prompt line per phone of the table, in
      table order, holding the phone's model and its value for that row. */
  lemma RowPromptOneLinePerPhone(list: seq<PhoneRecommendation>, key: SpecKey)
    requires |list| >= 1
    requires forall i | 0 <= i < |list| :: Unbroken(list[i].model) && Unbroken(SpecValue(list[i].specs, key))
    ensures |Split(FeatureLines(RowValues(list, key)), "\n")| == |list|
    ensures forall i | 0 <= i < |list| ::
      Split(FeatureLines(RowValues(list, key)), "\n")[i] == "- " + list[i].model + ": " + SpecValue(list[i].specs, key)
  {
    FeatureLinesOnePerEntry(RowValues(list, key));
  }

  // ---------------------------------------------------------------- the popup's state

  /** `comparisonData` when it is not null. */
  datatype FeatureComparison = FeatureComparison(feature: string, result: string, isLoading: bool)

  /** The comparison table over a fixed list of phones, with the popup of one feature. */
  class ComparisonModal {
    const list: seq<PhoneRecommendation>
    var comparisonData: Option<FeatureComparison>

    constructor (list: seq<PhoneRecommendation>)
      ensures this.list == list && comparisonData == None
    {
      this.list := list;
      comparisonData := None;
    }

    /** The start of `handleFeatureCompare` for a row: ignored while a comparison is
        loading; otherwise the popup opens loading and the row's values are sent. */
    method RequestFeatureCompare(row: SpecRow) returns (sent: Option<seq<FeatureValue>>)
      modifies this
      ensures sent.None? <==> old(comparisonData).Some? && old(comparisonData).value.isLoading
      ensures sent.None? ==> comparisonData == old(comparisonData)
      ensures sent.Some? ==> sent.value == RowValues(list, row.key)
                             && comparisonData == Some(FeatureComparison(row.title, "", true))
    {
      if comparisonData.Some? && comparisonData.value.isLoading {
        return None;
      }
      comparisonData := Some(FeatureComparison(row.title, "", true));
      sent := Some(RowValues(list, row.key));
    }

    /** The rest of `handleFeatureCompare`, once `comparePhoneFeatures` settles: the text
        fills the popup, or on failure the popup closes. */
    method CompleteFeatureCompare(featureTitle: string, outcome: Result<string, string>)
      modifies this
      ensures outcome.Success? ==> comparisonData == Some(FeatureComparison(featureTitle, outcome.value, false))
      ensures outcome.Failure? ==> comparisonData == None
    {
      if outcome.Success? {
        comparisonData := Some(FeatureComparison(featureTitle, outcome.value, false));
      } else {
        comparisonData := None;
      }
    }

    /** The popup's close button. */
    method ClosePopup()
      modifies this
      ensures comparisonData == None
    {
      comparisonData := None;
    }
  }

  // ---------------------------------------------------------------- the tray

  /** What the tray shows: the models, whether the compare button is enabled, the count
      on it, and whether the comparison table is open. */
  datatype TrayView = TrayView(models: seq<string>, canCompare: bool, count: nat, modalShown: bool)

  /** `Comparison`: nothing for an empty list; otherwise each phone's model in list order,
      the compare button enabled from two phones on, and the table when it was opened. */
  function Tray(list: seq<PhoneRecommendation>, isModalOpen: bool): (t: Option<TrayView>)
    ensures t.None? <==> list == []
    ensures t.Some? ==> |t.value.models| == |list| && t.value.count == |list|
    ensures t.Some? ==> forall i | 0 <= i < |list| :: t.value.models[i] == list[i].model
    ensures t.Some? ==> (t.value.canCompare <==> |list| >= 2)
    ensures t.Some? ==> t.value.modalShown == isModalOpen
  {
    if list == [] then None
    else Some(TrayView(seq(|list|, i requires 0 <= i < |list| => list[i].model), |list| >= 2, |list|, isModalOpen))
  }

  /** The tray's own state: whether the comparison table is open. */
  class ComparisonTray {
    var isModalOpen: bool

    constructor ()
      ensures !isModalOpen
    {
      isModalOpen := false;
    }

    /** The compare button: a disabled button (fewer than two phones) does nothing. */
    method PressCompare(list: seq<PhoneRecommendation>)
      modifies this
      ensures isModalOpen == (old(isModalOpen) || |list| >= 2)
    {
      if |list| >= 2 {
        isModalOpen := true;
      }
    }

    /** The table's close button. */
    method CloseModal()
      modifies this
      ensures !isModalOpen
    {
      isModalOpen := false;
    }
  }
}
