/**
 * The normalizer of `SteamUserInventory`: it joins raw Steam inventory assets
 * with their class descriptions and turns each asset into one flat item record.
 * Both inventory schemas (the legacy object-keyed one and the current
 * array-based one) converge on `FormatData`.
 */
module Normalizer {
  import opened Wrappers
  import opened JsValues

  /** The tag categories copied onto an item: `AVAILABLE_TAGS`. */
  const AvailableTags: seq<string> := ["Category", "Type", "Exterior", "Quality"]

  const ImageBase: string := "https://steamcommunity-a.akamaihd.net/economy/image/"

  const InspectActionName: string := "Inspect in Game..."

  // ---------------------------------------------------------------- raw data

  /** One inventory slot as the endpoints deliver it. */
  datatype Asset = Asset(id: Value, assetid: Value, amount: Value, classid: Value, instanceid: Value)

  datatype Action = Action(name: Value, link: Value)

  datatype Tag = Tag(category: Value, name: Value)

  /**
   * Metadata of an item class. `actions` and `tags` are None when the
   * payload holds something other than an array there.
   */
  datatype Description = Description(
    appid: Value,
    classid: Value,
    instanceid: Value,
    name: Value,
    marketHashName: Value,
    tradable: Value,
    marketable: Value,
    marketTradableRestriction: Value,
    iconUrl: Value,
    iconUrlLarge: Value,
    actions: Option<seq<Action>>,
    tags: Option<seq<Tag>>)

  /** A JavaScript object used as a dictionary: property name to description. */
  type DescriptionIndex = map<string, Description>

  /**
   * A response body object. The legacy endpoint fills `rgInventory` (in the
   * order its properties enumerate) and `rgDescriptions`; the current one
   * fills `assets`, `descriptions` and `totalInventoryCount`. An absent array
   * is an empty sequence (a `for…in` over undefined visits nothing); an
   * absent or null `rgDescriptions` is None.
   */
  datatype Payload = Payload(
    success: Value,
    totalInventoryCount: Value,
    assets: seq<Asset>,
    descriptions: seq<Description>,
    rgInventory: seq<Asset>,
    rgDescriptions: Option<DescriptionIndex>)

  // ------------------------------------------------------------ item records

  /** What the record keeps verbatim under `raw`. */
  datatype Raw = Raw(base: Asset, description: Option<Description>)

  /**
   * The description-derived part of a record; `DescriptionNotExist` is the
   * record flagged `descriptionNotExist: true`. `tags` holds the properties
   * named after the lower-cased allowed categories.
   */
  datatype Details =
    | DescriptionNotExist
    | Described(
        appId: Value,
        name: Value,
        marketHashName: Value,
        tradable: Value,
        marketable: Value,
        marketTradableRestriction: Value,
        link: Value,
        imageLarge: Option<string>,
        imageSmall: Option<string>,
        image: Option<string>,
        tags: map<string, Value>)

  datatype Item = Item(
    id: Value,
    assetId: Value,
    amount: Value,
    classId: Value,
    instanceId: Value,
    raw: Raw,
    details: Details)

  // ---------------------------------------------------------------- join key

  /** `getItemClassInstanceString`: `"{classid}_{instanceid}"`, or null. */
  function ClassInstanceKey(classId: Value, instanceId: Value): (key: Option<string>)
    ensures key.None? <==> !Truthy(classId) || !Truthy(instanceId)
  {
    if Truthy(classId) && Truthy(instanceId) then
      Some(Render(classId) + "_" + Render(instanceId))
    else
      None
  }

  /** A join key splits back into the rendered class id and instance id around the first '_' after the class id. */
  lemma ClassInstanceKeySplits(classId: Value, instanceId: Value)
    requires Truthy(classId) && Truthy(instanceId)
    ensures var key := ClassInstanceKey(classId, instanceId).value;
      var c := Render(classId);
      && |key| == |c| + 1 + |Render(instanceId)|
      && key[..|c|] == c
      && key[|c|] == '_'
      && key[|c| + 1..] == Render(instanceId)
  {
  }

  function AssetKey(a: Asset): (key: Option<string>) {
    ClassInstanceKey(a.classid, a.instanceid)
  }

  function DescriptionKey(d: Description): (key: Option<string>) {
    ClassInstanceKey(d.classid, d.instanceid)
  }

  /** The property name a key becomes when used on an object: null turns into "null". */
  function PropertyName(key: Option<string>): (name: string) {
    match key
    case None => "null"
    case Some(k) => k
  }

  /**
   * Two join keys address the same property exactly when they are equal:
   * a missing key ("null") never meets a real one, which always holds '_'.
   */
  lemma JoinKeysMeetOnlyWhenEqual(c1: Value, i1: Value, c2: Value, i2: Value)
    ensures PropertyName(ClassInstanceKey(c1, i1)) == PropertyName(ClassInstanceKey(c2, i2))
        <==> ClassInstanceKey(c1, i1) == ClassInstanceKey(c2, i2)
  {
    var k1, k2 := ClassInstanceKey(c1, i1), ClassInstanceKey(c2, i2);
    if k1.Some? {
      RealKeyIsNotNull(c1, i1);
    }
    if k2.Some? {
      RealKeyIsNotNull(c2, i2);
    }
  }

  lemma RealKeyIsNotNull(c: Value, i: Value)
    requires ClassInstanceKey(c, i).Some?
    ensures ClassInstanceKey(c, i).value != "null"
  {
    var k := ClassInstanceKey(c, i).value;
    ClassInstanceKeySplits(c, i);
    assert k[|Render(c)|] == '_';
    assert '_' in k;
    assert '_' !in "null";
  }

  // ------------------------------------------------------------------ images

  /** `getItemImageUrl`: the CDN URL of the large or small icon, or null. */
  function ItemImageUrl(d: Description, large: bool): (url: Option<string>)
    ensures var ref := if large then d.iconUrlLarge else d.iconUrl;
      && (url.Some? <==> Truthy(ref))
      && (url.Some? ==> |url.value| > |ImageBase| && url.value[..|ImageBase|] == ImageBase
                        && url.value[|ImageBase|..] == Render(ref))
  {
    var ref := if large then d.iconUrlLarge else d.iconUrl;
    if Truthy(ref) then Some(ImageBase + Render(ref)) else None
  }

  // ------------------------------------------------------------ inspect link

  predicate IsInspectAction(a: Action) {
    a.name == Str(InspectActionName) && Truthy(a.link)
  }

  /** The link of the first action that is an "Inspect in Game..." with a link, else null. */
  function FirstInspectLink(actions: seq<Action>): (link: Value) {
    if actions == [] then Null
    else if IsInspectAction(actions[0]) then actions[0].link
    else FirstInspectLink(actions[1..])
  }

  function InspectLink(d: Description): (link: Value) {
    match d.actions
    case None => Null
    case Some(actions) => FirstInspectLink(actions)
  }

  /** No action before position `i` is an inspect action with a link. */
  predicate NoInspectBefore(actions: seq<Action>, i: int)
    requires 0 <= i <= |actions|
  {
    forall j | 0 <= j < i :: !IsInspectAction(actions[j])
  }

  /** The inspect link is the first qualifying action's link, in list order, and null when none qualifies. */
  lemma {:induction false} FirstInspectLinkIsFirstMatch(actions: seq<Action>)
    ensures NoInspectBefore(actions, |actions|) ==> FirstInspectLink(actions) == Null
    ensures forall i | 0 <= i < |actions| && IsInspectAction(actions[i]) && NoInspectBefore(actions, i) ::
              FirstInspectLink(actions) == actions[i].link && Truthy(actions[i].link)
  {
    if actions != [] && !IsInspectAction(actions[0]) {
      var rest := actions[1..];
      FirstInspectLinkIsFirstMatch(rest);
      forall i | 0 < i < |actions| && IsInspectAction(actions[i]) && NoInspectBefore(actions, i)
        ensures FirstInspectLink(rest) == actions[i].link
      {
        assert rest[i - 1] == actions[i];
        ShiftNoInspect(actions, i);
      }
      if NoInspectBefore(actions, |actions|) {
        ShiftNoInspect(actions, |actions|);
      }
    }
  }

  lemma ShiftNoInspect(actions: seq<Action>, i: int)
    requires 0 < i <= |actions| && NoInspectBefore(actions, i)
    ensures NoInspectBefore(actions[1..], i - 1)
  {
    forall j | 0 <= j < i - 1 ensures !IsInspectAction(actions[1..][j]) {
      assert actions[1..][j] == actions[j + 1];
    }
  }

  /** `getInspectItemLink`: scans the actions in order and returns at the first match. */
  method GetInspectItemLink(d: Description) returns (link: Value)
    ensures link == InspectLink(d)
  {
    link := Null;
    if d.actions.Some? && |d.actions.value| > 0 {
      var actions := d.actions.value;
      for i := 0 to |actions|
        invariant FirstInspectLink(actions) == FirstInspectLink(actions[i..])
      {
        assert actions[i..][1..] == actions[i + 1..];
        var action := actions[i];
        if action.name == Str(InspectActionName) && Truthy(action.link) {
          return action.link;
        }
      }
      assert actions[|actions|..] == [];
    }
  }

  // -------------------------------------------------------------- tag fields

  /** The properties `resultRow[name.toLowerCase()] = null` sets for each name. */
  function NullFields(names: seq<string>): map<string, Value> {
    if names == [] then map[]
    else NullFields(names[..|names| - 1])[ToLowerCase(names[|names| - 1]) := Null]
  }

  /** The properties every described item carries, all null before the tags are read. */
  function DefaultTagFields(): map<string, Value> {
    NullFields(AvailableTags)
  }

  /** Whether `t` belongs to an allowed category whose lower-cased name is `key`. */
  predicate WritesTag(t: Tag, key: string) {
    t.category.Str? && t.category.s in AvailableTags && ToLowerCase(t.category.s) == key
  }

  function ApplyTag(fields: map<string, Value>, t: Tag): map<string, Value> {
    if t.category.Str? && t.category.s in AvailableTags then fields[ToLowerCase(t.category.s) := t.name]
    else fields
  }

  /** The tag properties after reading `tags` in order. */
  function TagFields(tags: seq<Tag>): map<string, Value> {
    if tags == [] then DefaultTagFields()
    else ApplyTag(TagFields(tags[..|tags| - 1]), tags[|tags| - 1])
  }

  function DescriptionTagFields(d: Description): map<string, Value> {
    match d.tags
    case None => DefaultTagFields()
    case Some(tags) => TagFields(tags)
  }

  /** The allowed categories give exactly four properties, all null by default. */
  lemma DefaultTagFieldsAre()
    ensures DefaultTagFields() == map["category" := Null, "type" := Null, "exterior" := Null, "quality" := Null]
  {
    var s1, s2, s3 := ["Category"], ["Category", "Type"], ["Category", "Type", "Exterior"];
    assert AvailableTags[..3] == s3 && s3[..2] == s2 && s2[..1] == s1 && s1[..0] == [];
    assert ToLowerCase("Category") == "category";
    assert NullFields(s1) == map["category" := Null];
    assert ToLowerCase("Type") == "type";
    assert NullFields(s2) == map["category" := Null, "type" := Null];
    assert ToLowerCase("Exterior") == "exterior";
    assert NullFields(s3) == map["category" := Null, "type" := Null, "exterior" := Null];
    assert ToLowerCase("Quality") == "quality";
  }

  /**
   * Reading the tags adds no property beyond the default ones, and each one
   * ends up holding the name of the last tag written to it, or null.
   */
  lemma TagFieldsLastWins(tags: seq<Tag>, key: string)
    requires key in DefaultTagFields()
    ensures TagFields(tags).Keys == DefaultTagFields().Keys
    ensures (forall j | 0 <= j < |tags| :: !WritesTag(tags[j], key)) ==> TagFields(tags)[key] == Null
    ensures forall j | 0 <= j < |tags| && WritesTag(tags[j], key) &&
                       (forall i | j < i < |tags| :: !WritesTag(tags[i], key)) ::
              TagFields(tags)[key] == tags[j].name
  {
    TagFieldsKeys(tags);
    if forall j | 0 <= j < |tags| :: !WritesTag(tags[j], key) {
      TagFieldsUntouched(tags, key);
    }
    forall j | 0 <= j < |tags| && WritesTag(tags[j], key) && (forall i | j < i < |tags| :: !WritesTag(tags[i], key))
      ensures TagFields(tags)[key] == tags[j].name
    {
      TagFieldsLastWriter(tags, key, j);
    }
  }

  lemma {:induction false} TagFieldsKeys(tags: seq<Tag>)
    ensures TagFields(tags).Keys == DefaultTagFields().Keys
  {
    if tags != [] {
      var n := |tags| - 1;
      TagFieldsKeys(tags[..n]);
      if tags[n].category.Str? && tags[n].category.s in AvailableTags {
        NullFieldsKeys(AvailableTags, ToLowerCase(tags[n].category.s));
      }
    }
  }

  lemma {:induction false} TagFieldsUntouched(tags: seq<Tag>, key: string)
    requires key in DefaultTagFields()
    requires forall j | 0 <= j < |tags| :: !WritesTag(tags[j], key)
    ensures key in TagFields(tags) && TagFields(tags)[key] == Null
  {
    if tags == [] {
      DefaultTagsAreNull(AvailableTags, key);
    } else {
      var n := |tags| - 1;
      var prefix := tags[..n];
      forall j | 0 <= j < n ensures !WritesTag(prefix[j], key) {
        assert prefix[j] == tags[j];
      }
      TagFieldsUntouched(prefix, key);
      assert !WritesTag(tags[n], key);
    }
  }

  lemma {:induction false} TagFieldsLastWriter(tags: seq<Tag>, key: string, j: int)
    requires 0 <= j < |tags| && WritesTag(tags[j], key)
    requires forall i | j < i < |tags| :: !WritesTag(tags[i], key)
    ensures key in TagFields(tags) && TagFields(tags)[key] == tags[j].name
  {
    var n := |tags| - 1;
    if j < n {
      var prefix := tags[..n];
      assert prefix[j] == tags[j];
      forall i | j < i < n ensures !WritesTag(prefix[i], key) {
        assert prefix[i] == tags[i];
      }
      TagFieldsLastWriter(prefix, key, j);
      assert !WritesTag(tags[n], key);
    }
  }

  lemma {:induction false} NullFieldsKeys(names: seq<string>, key: string)
    ensures key in NullFields(names) <==> exists c | c in names :: ToLowerCase(c) == key
  {
    if names != [] {
      var n := |names| - 1;
      NullFieldsKeys(names[..n], key);
      assert names == names[..n] + [names[n]];
      if exists c | c in names :: ToLowerCase(c) == key {
        var c :| c in names && ToLowerCase(c) == key;
        if c != names[n] {
          assert c in names[..n];
        }
      }
    }
  }

  lemma {:induction false} DefaultTagsAreNull(names: seq<string>, key: string)
    requires key in NullFields(names)
    ensures NullFields(names)[key] == Null
  {
    var n := |names| - 1;
    if key != ToLowerCase(names[n]) {
      DefaultTagsAreNull(names[..n], key);
    }
  }

  // ------------------------------------------------------------- formatItem

  /** The record `formatItem` builds for an asset and its description, if any. */
  function FormattedItem(asset: Asset, description: Option<Description>): (item: Item) {
    var id := Or(asset.id, asset.assetid);
    match description
    case None =>
      Item(id, id, asset.amount, asset.classid, asset.instanceid, Raw(asset, None), DescriptionNotExist)
    case Some(d) =>
      var large := ItemImageUrl(d, true);
      var small := ItemImageUrl(d, false);
      Item(id, id, asset.amount, asset.classid, asset.instanceid, Raw(asset, Some(d)),
           Described(d.appid, d.name, d.marketHashName, d.tradable, d.marketable,
                     d.marketTradableRestriction, InspectLink(d), large, small,
                     if large.Some? then large else small, DescriptionTagFields(d)))
  }

  /**
   * What every record says: `id` and `assetId` are `id || assetid`, `raw`
   * keeps the inputs, a record without description is flagged and has no
   * description-derived field, and otherwise the image prefers the large icon
   * and the four tag properties are present.
   */
  lemma FormattedItemShape(asset: Asset, description: Option<Description>)
    ensures var item := FormattedItem(asset, description);
      && item.id == item.assetId == (if Truthy(asset.id) then asset.id else asset.assetid)
      && item.amount == asset.amount && item.classId == asset.classid && item.instanceId == asset.instanceid
      && item.raw == Raw(asset, description)
      && (description.None? <==> item.details == DescriptionNotExist)
      && (description.Some? ==>
            var d := description.value;
            && item.details.name == d.name
            && item.details.link == InspectLink(d)
            && item.details.image == (if Truthy(d.iconUrlLarge) then ItemImageUrl(d, true) else ItemImageUrl(d, false))
            && item.details.tags.Keys == {"category", "type", "exterior", "quality"})
  {
    DefaultTagFieldsAre();
    if description.Some? && description.value.tags.Some? {
      TagFieldsLastWins(description.value.tags.value, "category");
    }
  }

  /** `formatItem`: builds the record field by field, then fills the tags in two passes. */
  method FormatItem(asset: Asset, description: Option<Description>) returns (row: Item)
    ensures row == FormattedItem(asset, description)
  {
    var id := Or(asset.id, asset.assetid);
    row := Item(id, id, asset.amount, asset.classid, asset.instanceid, Raw(asset, None), DescriptionNotExist);
    if description.Some? {
      var d := description.value;
      var link := GetInspectItemLink(d);
      var imageLarge := ItemImageUrl(d, true);
      var imageSmall := ItemImageUrl(d, false);
      var image := if imageLarge.Some? then imageLarge else imageSmall;
      var fields: map<string, Value> := map[];
      for i := 0 to |AvailableTags|
        invariant fields == NullFields(AvailableTags[..i])
      {
        assert AvailableTags[..i + 1][..i] == AvailableTags[..i];
        fields := fields[ToLowerCase(AvailableTags[i]) := Null];
      }
      assert AvailableTags[..|AvailableTags|] == AvailableTags;
      if d.tags.Some? {
        var tags := d.tags.value;
        for j := 0 to |tags|
          invariant fields == TagFields(tags[..j])
        {
          assert tags[..j + 1][..j] == tags[..j];
          var tag := tags[j];
          if tag.category.Str? && tag.category.s in AvailableTags {
            fields := fields[ToLowerCase(tag.category.s) := tag.name];
          }
        }
        assert tags[..|tags|] == tags;
      }
      row := row.(raw := Raw(asset, Some(d)),
                  details := Described(d.appid, d.name, d.marketHashName, d.tradable, d.marketable,
                                       d.marketTradableRestriction, link, imageLarge, imageSmall, image, fields));
    }
  }

  // ------------------------------------------------------------- formatData

  /** The description an asset joins with: present only when its key names a property of the index. */
  function Lookup(index: DescriptionIndex, a: Asset): (found: Option<Description>) {
    var name := PropertyName(AssetKey(a));
    if name in index then Some(index[name]) else None
  }

  /** The records of `assets`, one per asset, in order. */
  function FormattedData(assets: seq<Asset>, index: DescriptionIndex): (items: seq<Item>) {
    if assets == [] then []
    else FormattedData(assets[..|assets| - 1], index) + [FormattedItem(assets[|assets| - 1], Lookup(index, assets[|assets| - 1]))]
  }

  /** Record i is built from asset i and the description its key finds, and nothing else. */
  lemma {:induction false} FormattedDataPreservesOrder(assets: seq<Asset>, index: DescriptionIndex)
    ensures |FormattedData(assets, index)| == |assets|
    ensures forall i | 0 <= i < |assets| ::
      FormattedData(assets, index)[i] == FormattedItem(assets[i], Lookup(index, assets[i]))
  {
    if assets != [] {
      var n := |assets| - 1;
      FormattedDataPreservesOrder(assets[..n], index);
      forall i | 0 <= i < n ensures FormattedData(assets, index)[i] == FormattedItem(assets[i], Lookup(index, assets[i])) {
        assert assets[..n][i] == assets[i];
      }
    }
  }

  /** `formatData`: pushes one record per asset, looking its description up by key. */
  method FormatData(assets: seq<Asset>, index: DescriptionIndex) returns (result: seq<Item>)
    ensures result == FormattedData(assets, index)
  {
    result := [];
    for i := 0 to |assets|
      invariant result == FormattedData(assets[..i], index)
    {
      assert assets[..i + 1][..i] == assets[..i];
      var name := PropertyName(AssetKey(assets[i]));
      var description := None;
      if name in index {
        description := Some(index[name]);
      }
      var row := FormatItem(assets[i], description);
      result := result + [row];
    }
    assert assets[..|assets|] == assets;
  }

  // -------------------------------------------------------- schema adapters

  /** The TypeError `formatData` throws when it asks a missing index for an asset's key. */
  datatype FormatError = DescriptionsMissing

  /**
   * The records the legacy adapter gives for a payload: the first asset's
   * `descriptions.hasOwnProperty(...)` throws when `rgDescriptions` is
   * missing; with no asset the index is never consulted.
   */
  function FormattedOldEndPoint(data: Payload): (r: Result<seq<Item>, FormatError>)
    ensures r.Failure? <==> data.rgDescriptions.None? && |data.rgInventory| > 0
    ensures r.Success? && data.rgDescriptions.Some? ==> r.value == FormattedData(data.rgInventory, data.rgDescriptions.value)
    ensures r.Success? && data.rgDescriptions.None? ==> r.value == []
  {
    match data.rgDescriptions
    case None => if |data.rgInventory| > 0 then Failure(DescriptionsMissing) else Success([])
    case Some(index) => Success(FormattedData(data.rgInventory, index))
  }

  /** `formatDataFromOldEndPoint`: the legacy payload is already an asset list and an index. */
  method FormatDataFromOldEndPoint(data: Payload) returns (items: Result<seq<Item>, FormatError>)
    ensures items == FormattedOldEndPoint(data)
  {
    if data.rgDescriptions.None? {
      if |data.rgInventory| > 0 {
        return Failure(DescriptionsMissing);
      }
      return Success([]);
    }
    var formatted := FormatData(data.rgInventory, data.rgDescriptions.value);
    items := Success(formatted);
  }

  /** The index built from a description list, later entries overwriting earlier ones. */
  function IndexOf(descriptions: seq<Description>): (index: DescriptionIndex) {
    if descriptions == [] then map[]
    else IndexOf(descriptions[..|descriptions| - 1])[PropertyName(DescriptionKey(descriptions[|descriptions| - 1])) := descriptions[|descriptions| - 1]]
  }

  /** The records the current-endpoint adapter gives for a payload. */
  function FormattedNewEndPoint(data: Payload): (items: seq<Item>) {
    FormattedData(data.assets, IndexOf(data.descriptions))
  }

  /** Whether description `j` has property name `name`. */
  predicate Named(descriptions: seq<Description>, j: int, name: string)
    requires 0 <= j < |descriptions|
  {
    PropertyName(DescriptionKey(descriptions[j])) == name
  }

  /** Whether no description after position `j` has property name `name`. */
  predicate LastNamed(descriptions: seq<Description>, j: int, name: string)
    requires 0 <= j < |descriptions|
  {
    Named(descriptions, j, name) && forall i | j < i < |descriptions| :: !Named(descriptions, i, name)
  }

  /**
   * A property of the built index exists exactly when some description has
   * that key, and it holds the last such description.
   */
  lemma IndexOfLastWins(descriptions: seq<Description>, name: string)
    ensures name in IndexOf(descriptions) <==> exists j | 0 <= j < |descriptions| :: Named(descriptions, j, name)
    ensures forall j | 0 <= j < |descriptions| && LastNamed(descriptions, j, name) :: IndexOf(descriptions)[name] == descriptions[j]
  {
    if name in IndexOf(descriptions) {
      var j := IndexOfOrigin(descriptions, name);
    }
    if exists j | 0 <= j < |descriptions| :: Named(descriptions, j, name) {
      var j :| 0 <= j < |descriptions| && Named(descriptions, j, name);
      var last := LastWithName(descriptions, name, j);
      IndexOfHolds(descriptions, name, last);
    }
    forall j | 0 <= j < |descriptions| && LastNamed(descriptions, j, name)
      ensures IndexOf(descriptions)[name] == descriptions[j]
    {
      IndexOfHolds(descriptions, name, j);
    }
  }

  /** A property of the built index comes from some description with that key. */
  lemma {:induction false} IndexOfOrigin(descriptions: seq<Description>, name: string) returns (j: int)
    requires name in IndexOf(descriptions)
    ensures 0 <= j < |descriptions| && Named(descriptions, j, name)
  {
    var n := |descriptions| - 1;
    if Named(descriptions, n, name) {
      j := n;
    } else {
      var prefix := descriptions[..n];
      j := IndexOfOrigin(prefix, name);
      assert prefix[j] == descriptions[j];
    }
  }

  lemma {:induction false} IndexOfHolds(descriptions: seq<Description>, name: string, j: int)
    requires 0 <= j < |descriptions| && LastNamed(descriptions, j, name)
    ensures name in IndexOf(descriptions) && IndexOf(descriptions)[name] == descriptions[j]
  {
    var n := |descriptions| - 1;
    if j < n {
      var prefix := descriptions[..n];
      assert !Named(descriptions, n, name);
      assert prefix[j] == descriptions[j];
      forall i | j < i < n ensures !Named(prefix, i, name) {
        assert prefix[i] == descriptions[i];
        assert !Named(descriptions, i, name);
      }
      IndexOfHolds(prefix, name, j);
    }
  }

  /** `formatDataFromNewEndPoint`: fills the index in a loop (last write wins), then formats. */
  method FormatDataFromNewEndPoint(data: Payload) returns (items: seq<Item>)
    ensures items == FormattedNewEndPoint(data)
  {
    var descriptions: DescriptionIndex := map[];
    var list := data.descriptions;
    for i := 0 to |list|
      invariant descriptions == IndexOf(list[..i])
    {
      assert list[..i + 1][..i] == list[..i];
      var description := list[i];
      var ciString := PropertyName(DescriptionKey(description));
      descriptions := descriptions[ciString := description];
    }
    assert list[..|list|] == list;
    items := FormatData(data.assets, descriptions);
  }

  /**
   * The two adapters agree on equivalent data: when a legacy index is keyed
   * by its descriptions' own join keys and holds exactly the descriptions of
   * a current-endpoint list, the index built from the list is that index, so
   * both give the same records for the same assets.
   */
  lemma AdaptersAgree(assets: seq<Asset>, legacy: DescriptionIndex, descriptions: seq<Description>)
    requires forall name | name in legacy :: PropertyName(DescriptionKey(legacy[name])) == name
    requires forall j | 0 <= j < |descriptions| :: descriptions[j] in legacy.Values
    requires forall name | name in legacy :: exists j | 0 <= j < |descriptions| :: descriptions[j] == legacy[name]
    ensures IndexOf(descriptions) == legacy
    ensures FormattedData(assets, IndexOf(descriptions)) == FormattedData(assets, legacy)
  {
    var index := IndexOf(descriptions);
    forall name | name in legacy ensures name in index && index[name] == legacy[name] {
      IndexOfLastWins(descriptions, name);
      var j :| 0 <= j < |descriptions| && descriptions[j] == legacy[name];
      var last := LastWithName(descriptions, name, j);
      assert LastNamed(descriptions, last, name);
      var other :| other in legacy && legacy[other] == descriptions[last];
    }
    forall name | name in index ensures name in legacy {
      IndexOfLastWins(descriptions, name);
      var j :| 0 <= j < |descriptions| && PropertyName(DescriptionKey(descriptions[j])) == name;
      var other :| other in legacy && legacy[other] == descriptions[j];
    }
  }

  /** The last position at or after `j` whose description has property name `name`. */
  lemma LastWithName(descriptions: seq<Description>, name: string, j: nat) returns (last: nat)
    requires j < |descriptions| && Named(descriptions, j, name)
    ensures j <= last < |descriptions| && LastNamed(descriptions, last, name)
    decreases |descriptions| - j
  {
    if exists i | j < i < |descriptions| :: Named(descriptions, i, name) {
      var i :| j < i < |descriptions| && Named(descriptions, i, name);
      last := LastWithName(descriptions, name, i);
    } else {
      last := j;
    }
  }

  // --------------------------------------------------------------- examples

  /**
   * A legacy body with one asset "a" of class 1_2, described as "Widget"
   * with a single "Type" tag, gives one record named "Widget" whose type is
   * "Gadget" and whose category is null.
   */
  lemma LegacyFixture()
    ensures var asset := Asset(Str("a"), Undefined, Str("1"), Str("1"), Str("2"));
      var widget := Description(Undefined, Undefined, Undefined, Str("Widget"), Undefined, Undefined, Undefined,
                                Undefined, Undefined, Undefined, None, Some([Tag(Str("Type"), Str("Gadget"))]));
      var items := FormattedData([asset], map["1_2" := widget]);
      && |items| == 1
      && items[0].id == Str("a")
      && items[0].details.Described?
      && items[0].details.name == Str("Widget")
      && "type" in items[0].details.tags && items[0].details.tags["type"] == Str("Gadget")
      && "category" in items[0].details.tags && items[0].details.tags["category"] == Null
  {
    var asset := Asset(Str("a"), Undefined, Str("1"), Str("1"), Str("2"));
    var tags := [Tag(Str("Type"), Str("Gadget"))];
    assert Truthy(Str("1")) && Truthy(Str("2"));
    assert Render(Str("1")) + "_" + Render(Str("2")) == "1_2";
    assert AssetKey(asset) == Some("1_2");
    DefaultTagFieldsAre();
    assert ToLowerCase("Type") == "type";
    assert WritesTag(tags[0], "type");
    assert !WritesTag(tags[0], "category");
    TagFieldsLastWins(tags, "type");
    TagFieldsLastWins(tags, "category");
  }
}
